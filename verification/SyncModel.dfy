/** The block fetch scheduler on values: per peer, the blocks announced and the blocks to be fetched. */
module SyncModel {
  import opened Sums
  import opened Types

  type Peer = nat

  const MAX_RETRIES_PER_BLOCK: nat := 500

  datatype Status = Queued | Fetching | Fetched | Failed

  datatype Key = Key(id: nat, hash: Hash)

  datatype BlockData = BlockData(key: Key, status: Status, retries: nat)

  // ---------- order ----------

  predicate Less(a: Key, b: Key) {
    a.id < b.id || (a.id == b.id && a.hash < b.hash)
  }

  ghost predicate Increasing(keys: seq<Key>) {
    forall i, j :: 0 <= i < j < |keys| ==> Less(keys[i], keys[j])
  }

  function KeysOf(q: seq<BlockData>): (r: seq<Key>)
    ensures |r| == |q| && forall i :: 0 <= i < |q| ==> r[i] == q[i].key
  {
    seq(|q|, i requires 0 <= i < |q| => q[i].key)
  }

  function Insert(d: BlockData, q: seq<BlockData>): (r: seq<BlockData>)
    ensures |r| == |q| + 1
  {
    if q == [] then [d] else if Less(q[0].key, d.key) then [q[0]] + Insert(d, q[1..]) else [d] + q
  }

  /** sort_by on block id and then hash. */
  function Sort(q: seq<BlockData>): (r: seq<BlockData>)
    ensures |r| == |q|
  {
    if q == [] then [] else Insert(q[0], Sort(q[1..]))
  }

  lemma {:induction false} InsertMembers(d: BlockData, q: seq<BlockData>, x: BlockData)
    ensures x in Insert(d, q) <==> x == d || x in q
  {
    if q != [] && Less(q[0].key, d.key) { InsertMembers(d, q[1..], x); }
  }

  lemma {:induction false} SortMembers(q: seq<BlockData>, x: BlockData)
    ensures x in Sort(q) <==> x in q
  {
    if q != [] {
      SortMembers(q[1..], x);
      InsertMembers(q[0], Sort(q[1..]), x);
    }
  }

  lemma {:induction false} InsertAlong(d: BlockData, q: seq<BlockData>, f: BlockData -> nat)
    ensures Along(Insert(d, q), f) == f(d) + Along(q, f)
  {
    if q == [] {
      AlongOne(d, f);
    } else if Less(q[0].key, d.key) {
      InsertAlong(d, q[1..], f);
      assert ([q[0]] + Insert(d, q[1..]))[1..] == Insert(d, q[1..]);
    } else {
      assert ([d] + q)[1..] == q;
    }
  }

  lemma {:induction false} SortAlong(q: seq<BlockData>, f: BlockData -> nat)
    ensures Along(Sort(q), f) == Along(q, f)
  {
    if q != [] {
      SortAlong(q[1..], f);
      InsertAlong(q[0], Sort(q[1..]), f);
    }
  }

  /** No two entries for the same block. */
  ghost predicate Distinct(q: seq<BlockData>) {
    forall i, j :: 0 <= i < j < |q| ==> q[i].key != q[j].key
  }

  lemma {:induction false} InsertIncreasing(d: BlockData, q: seq<BlockData>)
    requires Increasing(KeysOf(q)) && forall x | x in q :: x.key != d.key
    ensures Increasing(KeysOf(Insert(d, q)))
  {
    if q != [] && Less(q[0].key, d.key) {
      var rest := Insert(d, q[1..]);
      forall i, j | 0 <= i < j < |q[1..]| ensures Less(KeysOf(q[1..])[i], KeysOf(q[1..])[j]) {
        assert Less(KeysOf(q)[i + 1], KeysOf(q)[j + 1]);
      }
      InsertIncreasing(d, q[1..]);
      forall j | 0 <= j < |rest| ensures Less(q[0].key, rest[j].key) {
        InsertMembers(d, q[1..], rest[j]);
        if rest[j] != d {
          var k :| 0 <= k < |q[1..]| && q[1..][k] == rest[j];
          assert Less(KeysOf(q)[0], KeysOf(q)[k + 1]);
        }
      }
      ConsIncreasing(q[0], rest);
    } else if q != [] {
      assert q[0] in q && Less(d.key, q[0].key);
      forall j | 0 <= j < |q| ensures Less(d.key, q[j].key) {
        if j > 0 { assert Less(KeysOf(q)[0], KeysOf(q)[j]); }
      }
      ConsIncreasing(d, q);
    }
  }

  lemma {:induction false} ConsIncreasing(d: BlockData, q: seq<BlockData>)
    requires Increasing(KeysOf(q)) && forall j :: 0 <= j < |q| ==> Less(d.key, q[j].key)
    ensures Increasing(KeysOf([d] + q))
  {
    var all := [d] + q;
    forall i, j | 0 <= i < j < |all| ensures Less(KeysOf(all)[i], KeysOf(all)[j]) {
      if i > 0 { assert Less(KeysOf(q)[i - 1], KeysOf(q)[j - 1]); }
    }
  }

  lemma {:induction false} SortIncreasing(q: seq<BlockData>)
    requires Distinct(q)
    ensures Increasing(KeysOf(Sort(q))) && Distinct(Sort(q))
  {
    if q != [] {
      SortIncreasing(q[1..]);
      forall x | x in Sort(q[1..]) ensures x.key != q[0].key {
        SortMembers(q[1..], x);
      }
      InsertIncreasing(q[0], Sort(q[1..]));
    }
    assert forall i :: 0 <= i < |q| ==> KeysOf(Sort(q))[i] == Sort(q)[i].key;
  }

  // ---------- selection for one peer ----------

  function IsFetching(d: BlockData): nat {
    if d.status.Fetching? then 1 else 0
  }

  function FetchingCount(q: seq<BlockData>): nat {
    Along(q, IsFetching)
  }

  /** What the selection loop does to an entry it reaches with quota left. */
  function Visit(d: BlockData): BlockData {
    match d.status
    case Queued => d.(status := Fetching)
    case Failed =>
      if d.retries < MAX_RETRIES_PER_BLOCK then d.(status := Queued, retries := d.retries + 1)
      else if d.retries == MAX_RETRIES_PER_BLOCK then d.(retries := d.retries + 1)
      else d
    case _ => d
  }

  /** Selecting an entry and re-queueing a failed one both use up quota. */
  function Cost(d: BlockData): nat {
    if d.status.Queued? || (d.status.Failed? && d.retries < MAX_RETRIES_PER_BLOCK) then 1 else 0
  }

  function Scan(q: seq<BlockData>, quota: nat): (r: seq<BlockData>)
    ensures |r| == |q|
  {
    if q == [] || quota == 0 then q else [Visit(q[0])] + Scan(q[1..], quota - Cost(q[0]))
  }

  /** The blocks handed out, in the order in which they are met. */
  function Picks(q: seq<BlockData>, quota: nat): seq<Key> {
    if q == [] || quota == 0 then []
    else (if q[0].status.Queued? then [q[0].key] else []) + Picks(q[1..], quota - Cost(q[0]))
  }

  function Quota(q: seq<BlockData>, batch: nat): int {
    batch - FetchingCount(q)
  }

  // ---------- the scheduler ----------

  datatype Sync = Sync(received: map<Peer, seq<Key>>, toFetch: map<Peer, seq<BlockData>>)

  const EMPTY_SYNC := Sync(map[], map[])

  function ListOf<T>(m: map<Peer, seq<T>>, p: Peer): seq<T> {
    if p in m then m[p] else []
  }

  /** retain(|_, list| !list.is_empty()) */
  function NonEmpty<T>(m: map<Peer, seq<T>>): map<Peer, seq<T>> {
    map p | p in m && |m[p]| > 0 :: m[p]
  }

  /** An announcement without a peer goes to every peer that can be asked. */
  function AddEntry(s: Sync, k: Key, peer: Peer, askable: set<Peer>): Sync {
    var targets := if peer == 0 then askable else {peer};
    s.(received := map p | p in s.received.Keys + targets ::
      ListOf(s.received, p) + if p in targets then [k] else [])
  }

  predicate Listed(q: seq<BlockData>, k: Key) {
    exists d :: d in q && d.key == k
  }

  /** Queue the announced blocks that are neither on chain nor listed already. */
  function Enqueue(q: seq<BlockData>, keys: seq<Key>, onChain: set<Hash>): seq<BlockData>
    decreases keys
  {
    if keys == [] then q
    else if keys[0].hash in onChain || Listed(q, keys[0]) then Enqueue(q, keys[1..], onChain)
    else Enqueue(q + [BlockData(keys[0], Queued, 0)], keys[1..], onChain)
  }

  function InsertKey(k: Key, ks: seq<Key>): seq<Key> {
    if ks == [] then [k] else if Less(ks[0], k) then [ks[0]] + InsertKey(k, ks[1..]) else [k] + ks
  }

  function SortKeys(ks: seq<Key>): seq<Key> {
    if ks == [] then [] else InsertKey(ks[0], SortKeys(ks[1..]))
  }

  function BuildMap(received: map<Peer, seq<Key>>, toFetch: map<Peer, seq<BlockData>>, onChain: set<Hash>):
    map<Peer, seq<BlockData>>
  {
    map p | p in received.Keys + toFetch.Keys :: Enqueue(ListOf(toFetch, p), SortKeys(ListOf(received, p)), onChain)
  }

  function Build(s: Sync, onChain: set<Hash>): Sync {
    Sync(map[], NonEmpty(BuildMap(s.received, s.toFetch, onChain)))
  }

  /** The fetching counts leave room for a quota at every peer. */
  predicate WithinBatch(m: map<Peer, seq<BlockData>>, batch: nat) {
    forall p | p in m :: Quota(m[p], batch) >= 0
  }

  function SelectList(q: seq<BlockData>, batch: nat): seq<BlockData>
    requires Quota(q, batch) >= 0
  {
    Scan(Sort(q), Quota(q, batch))
  }

  function PickList(q: seq<BlockData>, batch: nat): seq<Key>
    requires Quota(q, batch) >= 0
  {
    Picks(Sort(q), Quota(q, batch))
  }

  function SelectMap(m: map<Peer, seq<BlockData>>, batch: nat): map<Peer, seq<BlockData>>
    requires WithinBatch(m, batch)
  {
    map p | p in m :: SelectList(m[p], batch)
  }

  function PicksMap(m: map<Peer, seq<BlockData>>, batch: nat): map<Peer, seq<Key>>
    requires WithinBatch(m, batch)
  {
    map p | p in m :: PickList(m[p], batch)
  }

  /** One round: per peer sort, compute the quota, and walk the list. */
  function Select(s: Sync, batch: nat): Sync
    requires WithinBatch(s.toFetch, batch)
  {
    s.(toFetch := SelectMap(s.toFetch, batch))
  }

  function Selected(s: Sync, batch: nat): map<Peer, seq<Key>>
    requires WithinBatch(s.toFetch, batch)
  {
    NonEmpty(PicksMap(s.toFetch, batch))
  }

  /** Mark the first entry that satisfies the test. */
  function MarkHash(q: seq<BlockData>, hash: Hash): seq<BlockData> {
    if q == [] then []
    else if q[0].key.hash == hash then [q[0].(status := Fetched)] + q[1..]
    else [q[0]] + MarkHash(q[1..], hash)
  }

  function MarkKeyFailed(q: seq<BlockData>, k: Key): seq<BlockData> {
    if q == [] then []
    else if q[0].key == k then [q[0].(status := Failed)] + q[1..]
    else [q[0]] + MarkKeyFailed(q[1..], k)
  }

  function DropFetched(q: seq<BlockData>): seq<BlockData> {
    if q == [] then [] else (if q[0].status.Fetched? then [] else [q[0]]) + DropFetched(q[1..])
  }

  function DropHash(q: seq<BlockData>, hash: Hash): seq<BlockData> {
    if q == [] then [] else (if q[0].key.hash == hash then [] else [q[0]]) + DropHash(q[1..], hash)
  }

  function MarkMap(m: map<Peer, seq<BlockData>>, hash: Hash): map<Peer, seq<BlockData>> {
    map p | p in m :: MarkHash(m[p], hash)
  }

  function DropFetchedMap(m: map<Peer, seq<BlockData>>): map<Peer, seq<BlockData>> {
    map p | p in m :: DropFetched(m[p])
  }

  function DropHashMap(m: map<Peer, seq<BlockData>>, hash: Hash): map<Peer, seq<BlockData>> {
    map p | p in m :: DropHash(m[p], hash)
  }

  function MarkAsFetched(s: Sync, hash: Hash): Sync {
    s.(toFetch := NonEmpty(DropFetchedMap(MarkMap(s.toFetch, hash))))
  }

  function MarkAsFailed(s: Sync, k: Key, peer: Peer): Sync {
    if peer in s.toFetch then s.(toFetch := s.toFetch[peer := MarkKeyFailed(s.toFetch[peer], k)]) else s
  }

  function RemoveEntry(s: Sync, hash: Hash): Sync {
    s.(toFetch := NonEmpty(DropHashMap(s.toFetch, hash)))
  }
}
