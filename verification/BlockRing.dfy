/** `RingItem` and `BlockRing` as the objects they are; every method is tied to the ring on values. */
module BlockRing {
  import opened Types
  import opened RingModel

  function Zip(ids: seq<nat>, hashes: seq<Hash>): (r: seq<Entry>)
    requires |ids| == |hashes|
    ensures |r| == |ids| && forall i :: 0 <= i < |r| ==> r[i] == Entry(ids[i], hashes[i])
  {
    seq(|ids|, i requires 0 <= i < |ids| => Entry(ids[i], hashes[i]))
  }

  lemma {:induction false} WithoutNext(entries: seq<Entry>, i: nat, e: Entry)
    requires i < |entries|
    ensures Without(entries[..i + 1], e) == Without(entries[..i], e) + if entries[i] == e then [] else [entries[i]]
  {
    assert entries[..i + 1] == entries[..i] + [entries[i]];
    WithoutConcat(entries[..i], [entries[i]], e);
    assert [entries[i]][1..] == [];
  }

  class RingItem {
    var lcPos: Option<nat>
    var blockHashes: seq<Hash>
    var blockIds: seq<nat>

    ghost predicate Valid()
      reads this
    {
      |blockHashes| == |blockIds|
    }

    ghost function Model(): Slot
      requires Valid()
      reads this
    {
      Slot(Zip(blockIds, blockHashes), lcPos)
    }

    constructor ()
      ensures Valid() && Model() == EMPTY_SLOT
    {
      lcPos, blockHashes, blockIds := None, [], [];
    }

    method AddBlock(id: nat, hash: Hash)
      requires Valid()
      modifies this
      ensures Valid()
      ensures Model() == old(Model()).(entries := old(Model()).entries + [Entry(id, hash)])
    {
      blockHashes := blockHashes + [hash];
      blockIds := blockIds + [id];
    }

    method ContainsBlockHash(hash: Hash) returns (found: bool)
      requires Valid()
      ensures found <==> exists e :: e in Model().entries && e.hash == hash
    {
      found := false;
      for i := 0 to |blockHashes|
        invariant !found
        invariant forall k :: 0 <= k < i ==> blockHashes[k] != hash
      {
        if blockHashes[i] == hash {
          assert Model().entries[i].hash == hash;
          return true;
        }
      }
    }

    /** Rebuilds both vectors; the position falls back to zero unless the longest-chain entry is kept. */
    method DeleteBlock(id: nat, hash: Hash)
      requires Valid()
      modifies this
      ensures Valid()
      ensures Model() == SlotDelete(old(Model()), Entry(id, hash))
    {
      ghost var entries := Model().entries;
      ghost var e := Entry(id, hash);
      var newHashes: seq<Hash>, newIds: seq<nat> := [], [];
      var newPos: Option<nat> := Some(0);
      for i := 0 to |blockIds|
        modifies {}
        invariant |newHashes| == |newIds| && Zip(newIds, newHashes) == Without(entries[..i], e)
        invariant newPos == if lcPos.Some? && lcPos.value < i && entries[lcPos.value] != e
                            then Some(|Without(entries[..lcPos.value], e)|) else Some(0)
      {
        WithoutNext(entries, i, e);
        if blockIds[i] != id || blockHashes[i] != hash {
          if lcPos == Some(i) {
            newPos := Some(|newIds|);
          }
          newHashes, newIds := newHashes + [blockHashes[i]], newIds + [blockIds[i]];
        }
      }
      assert entries[..|blockIds|] == entries;
      blockHashes, blockIds, lcPos := newHashes, newIds, newPos;
    }

    method OnChainReorganization(hash: Hash, longest: bool)
      requires Valid()
      modifies this
      ensures Valid()
      ensures Model() == SlotReorg(old(Model()), hash, longest)
    {
      if !longest {
        lcPos := None;
        return;
      }
      var i := 0;
      while i < |blockHashes| && blockHashes[i] != hash
        invariant i <= |blockHashes|
        invariant forall k :: 0 <= k < i ==> blockHashes[k] != hash
      {
        i := i + 1;
      }
      ghost var p := Position(Model().entries, hash);
      lcPos := if i < |blockHashes| then Some(i) else None;
      assert lcPos == p;
    }
  }

  class BlockRing {
    const ring: seq<RingItem>
    const genesisPeriod: nat
    var lcPos: Option<nat>
    var empty: bool

    ghost predicate Valid()
      reads this, ring
    {
      && genesisPeriod > 0 && |ring| == 2 * genesisPeriod
      && (forall i, j :: 0 <= i < j < |ring| ==> ring[i] != ring[j])
      && (forall i :: 0 <= i < |ring| ==> ring[i].Valid())
      && (lcPos.Some? ==> lcPos.value < |ring|)
    }

    ghost function Model(): (r: Ring)
      requires Valid()
      reads this, ring
      ensures r.Valid() && |r.slots| == |ring| && r.lcPos == lcPos
      ensures forall i :: 0 <= i < |ring| ==> r.slots[i] == ring[i].Model()
    {
      Ring(seq(|ring|, i requires 0 <= i < |ring| && ring[i].Valid() reads ring => ring[i].Model()), lcPos)
    }

    constructor (period: nat)
      requires period > 0
      ensures Valid() && fresh(ring)
      ensures genesisPeriod == period && Model() == EmptyRing(2 * period)
    {
      var items: seq<RingItem> := [];
      for i := 0 to 2 * period
        invariant |items| == i && fresh(items)
        invariant forall a, b :: 0 <= a < b < i ==> items[a] != items[b]
        invariant forall a :: 0 <= a < i ==> items[a].Valid() && items[a].Model() == EMPTY_SLOT
      {
        var item := new RingItem();
        items := items + [item];
      }
      ring, genesisPeriod, lcPos, empty := items, period, None, true;
    }

    method AddBlock(id: nat, hash: Hash)
      requires Valid()
      modifies ring
      ensures Valid() && Model() == RingAdd(old(Model()), Entry(id, hash))
    {
      var pos := id % (2 * genesisPeriod);
      ring[pos].AddBlock(id, hash);
    }

    method DeleteBlock(id: nat, hash: Hash)
      requires Valid()
      modifies ring
      ensures Valid() && Model() == RingDelete(old(Model()), Entry(id, hash))
    {
      var pos := id % (2 * genesisPeriod);
      ring[pos].DeleteBlock(id, hash);
    }

    method OnChainReorganization(id: nat, hash: Hash, longest: bool)
      requires Valid()
      modifies this`lcPos, ring
      ensures Valid() && Model() == RingReorg(old(Model()), Entry(id, hash), longest)
    {
      var pos := id % (2 * genesisPeriod);
      ring[pos].OnChainReorganization(hash, longest);
      if longest {
        lcPos := Some(pos);
      } else if lcPos == Some(pos) {
        var previous := if pos > 0 then pos - 1 else 2 * genesisPeriod - 1;
        lcPos := None;
        var item := ring[previous];
        if item.lcPos.Some? && |item.blockIds| > item.lcPos.value && item.blockIds[item.lcPos.value] == id - 1 {
          lcPos := Some(previous);
        }
      }
    }

    method GetLongestChainBlockHashAtBlockId(id: nat) returns (hash: Option<Hash>)
      requires Valid()
      ensures hash == LongestAt(Model(), id)
    {
      var item := ring[id % (2 * genesisPeriod)];
      match item.lcPos
      case None =>
        return None;
      case Some(k) =>
        if k >= |item.blockIds| || item.blockIds[k] != id {
          return None;
        }
        return Some(item.blockHashes[k]);
    }

    /** Indexing the slot panics on a stale position, so the caller must know that there is none. */
    method GetLatestBlock() returns (id: nat, hash: Hash)
      requires Valid()
      requires lcPos.Some? && ring[lcPos.value].lcPos.Some? ==>
        ring[lcPos.value].lcPos.value < |ring[lcPos.value].blockIds|
      ensures Entry(id, hash) == Latest(Model())
    {
      if lcPos.None? || ring[lcPos.value].lcPos.None? {
        return 0, 0;
      }
      var item := ring[lcPos.value];
      return item.blockIds[item.lcPos.value], item.blockHashes[item.lcPos.value];
    }

    method GetBlockHashesAtBlockId(id: nat) returns (hashes: seq<Hash>)
      requires Valid()
      ensures hashes == HashesAt(Model(), id)
    {
      var item := ring[id % (2 * genesisPeriod)];
      ghost var entries := item.Model().entries;
      hashes := [];
      for i := 0 to |item.blockIds|
        invariant hashes + HashesFor(entries[i..], id) == HashesFor(entries, id)
      {
        assert entries[i..][1..] == entries[i + 1..];
        if item.blockIds[i] == id {
          hashes := hashes + [item.blockHashes[i]];
        }
      }
    }
  }
}
