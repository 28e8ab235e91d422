/**
 * The block ring on values: a fixed number of slots, block `id` in slot `id % slots`. Against it stand a
 * plain stack of block hashes (the longest chain) and a plain list of everything added and not deleted.
 */
module RingModel {
  import opened Types

  // ---------- one slot ----------

  datatype Entry = Entry(id: nat, hash: Hash)

  /** RingItem: the blocks of one slot in the order of arrival and the position of the longest-chain one. */
  datatype Slot = Slot(entries: seq<Entry>, lc: Option<nat>)

  const EMPTY_SLOT := Slot([], None)

  function LongestEntry(s: Slot): Option<Entry> {
    if s.lc.Some? && s.lc.value < |s.entries| then Some(s.entries[s.lc.value]) else None
  }

  function Position(entries: seq<Entry>, hash: Hash): (r: Option<nat>)
    ensures r.Some? ==> r.value < |entries| && entries[r.value].hash == hash
    ensures r.Some? ==> forall k :: 0 <= k < r.value ==> entries[k].hash != hash
    ensures r.None? ==> forall k :: 0 <= k < |entries| ==> entries[k].hash != hash
  {
    if entries == [] then None
    else if entries[0].hash == hash then Some(0)
    else match Position(entries[1..], hash) case None => None case Some(k) => Some(k + 1)
  }

  function SlotReorg(s: Slot, hash: Hash, longest: bool): Slot {
    s.(lc := if longest then Position(s.entries, hash) else None)
  }

  function Without(entries: seq<Entry>, e: Entry): seq<Entry> {
    if entries == [] then []
    else (if entries[0] == e then [] else [entries[0]]) + Without(entries[1..], e)
  }

  /** The longest-chain entry exists and is not the one being deleted. */
  predicate Survives(s: Slot, e: Entry) {
    LongestEntry(s).Some? && LongestEntry(s).value != e
  }

  /** delete_block: when no longest-chain entry survives, the position falls back to zero. */
  function SlotDelete(s: Slot, e: Entry): Slot {
    Slot(Without(s.entries, e),
      if Survives(s, e) then Some(|Without(s.entries[..s.lc.value], e)|) else Some(0))
  }

  lemma {:induction false} WithoutConcat(a: seq<Entry>, b: seq<Entry>, e: Entry)
    ensures Without(a + b, e) == Without(a, e) + Without(b, e)
  {
    if a == [] {
      assert a + b == b;
    } else {
      assert (a + b)[1..] == a[1..] + b;
      WithoutConcat(a[1..], b, e);
    }
  }

  lemma {:induction false} WithoutMembers(entries: seq<Entry>, e: Entry, x: Entry)
    ensures x in Without(entries, e) <==> x in entries && x != e
  {
    if entries != [] { WithoutMembers(entries[1..], e, x); }
  }

  lemma {:induction false} SurvivorKeepsItsPlace(s: Slot, e: Entry)
    requires Survives(s, e)
    ensures LongestEntry(SlotDelete(s, e)) == LongestEntry(s)
  {
    var k := s.lc.value;
    var (before, after) := (s.entries[..k], s.entries[k + 1..]);
    assert s.entries == before + [s.entries[k]] + after;
    WithoutConcat(before + [s.entries[k]], after, e);
    WithoutConcat(before, [s.entries[k]], e);
    assert [s.entries[k]][1..] == [];
    assert Without([s.entries[k]], e) == [s.entries[k]];
  }

  /**
   * Deleting leaves the slot's longest-chain entry as it was exactly when that entry survives, or there
   * was none and the deletion empties the slot.
   */
  lemma {:induction false} DeleteKeepsLongestIff(s: Slot, e: Entry)
    ensures LongestEntry(SlotDelete(s, e)) == LongestEntry(s) <==>
      Survives(s, e) || (LongestEntry(s).None? && Without(s.entries, e) == [])
  {
    if Survives(s, e) {
      SurvivorKeepsItsPlace(s, e);
    } else if LongestEntry(s).Some? {
      WithoutMembers(s.entries, e, e);
    }
  }

  /** An off-chain sibling becomes a longest-chain block when another sibling is deleted. */
  lemma {:induction false} DeletePromotesABystander()
    ensures var s := Slot([Entry(4, 100), Entry(4, 200)], None);
      LongestEntry(s) == None && LongestEntry(SlotDelete(s, Entry(4, 200))) == Some(Entry(4, 100))
  {
    var entries := [Entry(4, 100), Entry(4, 200)];
    assert entries[1..] == [Entry(4, 200)] && entries[1..][1..] == [];
    assert Without(entries[1..], Entry(4, 200)) == [];
    assert Without(entries, Entry(4, 200)) == [Entry(4, 100)];
  }

  // ---------- the ring ----------

  datatype Ring = Ring(slots: seq<Slot>, lcPos: Option<nat>) {
    predicate Valid() {
      |slots| >= 2 && (lcPos.Some? ==> lcPos.value < |slots|)
    }

    function At(id: nat): (pos: nat)
      requires |slots| >= 2
      ensures pos < |slots|
    {
      id % |slots|
    }
  }

  function EmptyRing(size: nat): Ring {
    Ring(seq(size, _ => EMPTY_SLOT), None)
  }

  function RingAdd(r: Ring, e: Entry): Ring
    requires r.Valid()
  {
    var s := r.slots[r.At(e.id)];
    r.(slots := r.slots[r.At(e.id) := s.(entries := s.entries + [e])])
  }

  function RingDelete(r: Ring, e: Entry): Ring
    requires r.Valid()
  {
    r.(slots := r.slots[r.At(e.id) := SlotDelete(r.slots[r.At(e.id)], e)])
  }

  /** The slot before `pos`, wrapping around at zero. */
  function Before(r: Ring, pos: nat): nat
    requires r.Valid() && pos < |r.slots|
  {
    if pos > 0 then pos - 1 else |r.slots| - 1
  }

  /** on_chain_reorganization: mark a block, or unmark it and try to fall back to its parent's slot. */
  function RingReorg(r: Ring, e: Entry, longest: bool): Ring
    requires r.Valid()
  {
    var pos := r.At(e.id);
    var slots := r.slots[pos := SlotReorg(r.slots[pos], e.hash, longest)];
    if longest then Ring(slots, Some(pos))
    else if r.lcPos == Some(pos) then
      var previous := LongestEntry(slots[Before(r, pos)]);
      Ring(slots, if previous.Some? && previous.value.id == e.id - 1 then Some(Before(r, pos)) else None)
    else Ring(slots, r.lcPos)
  }

  /** get_latest_block_id and get_latest_block_hash, (0, zero hash) when unknown. */
  function Latest(r: Ring): Entry
    requires r.Valid()
  {
    if r.lcPos.None? then Entry(0, 0)
    else match LongestEntry(r.slots[r.lcPos.value]) case None => Entry(0, 0) case Some(e) => e
  }

  function LongestAt(r: Ring, id: nat): Option<Hash>
    requires r.Valid()
  {
    match LongestEntry(r.slots[r.At(id)])
    case None => None
    case Some(e) => if e.id == id then Some(e.hash) else None
  }

  function HashesFor(entries: seq<Entry>, id: nat): seq<Hash> {
    if entries == [] then []
    else (if entries[0].id == id then [entries[0].hash] else []) + HashesFor(entries[1..], id)
  }

  function HashesAt(r: Ring, id: nat): seq<Hash>
    requires r.Valid()
  {
    HashesFor(r.slots[r.At(id)].entries, id)
  }

  // ---------- the longest chain as a stack ----------

  /** The plain stack: block `base + 1 + k` has hash `hashes[k]`; ids up to `floor` have been overwritten. */
  datatype Stack = Stack(base: nat, hashes: seq<Hash>, floor: nat) {
    function Tip(): nat {
      base + |hashes|
    }

    predicate Holds(id: nat) {
      base < id <= Tip()
    }

    function HashOf(id: nat): Hash
      requires Holds(id)
    {
      hashes[id - base - 1]
    }
  }

  function Push(v: Stack, hash: Hash, size: nat): Stack {
    var tip := v.Tip() + 1;
    Stack(v.base, v.hashes + [hash], if tip > v.floor + size then tip - size else v.floor)
  }

  function Pop(v: Stack): Stack
    requires v.hashes != []
  {
    var tip := v.Tip() - 1;
    Stack(v.base, v.hashes[..|v.hashes| - 1], if v.floor > tip then tip else v.floor)
  }

  /** Slot `id % size` is as the stack demands; over one period of ids this fixes every slot. */
  ghost predicate SlotAgrees(r: Ring, v: Stack, id: nat)
    requires r.Valid() && v.base <= v.floor
  {
    var s := r.slots[r.At(id)];
    if v.floor < id <= v.Tip() then LongestEntry(s) == Some(Entry(id, v.HashOf(id))) else s.lc == None
  }

  /** The ring agrees with the stack above its floor. */
  ghost predicate Agrees(r: Ring, v: Stack) {
    && r.Valid()
    && v.base <= v.floor <= v.Tip() <= v.floor + |r.slots|
    && (forall id :: v.floor < id <= v.floor + |r.slots| ==> SlotAgrees(r, v, id))
    && r.lcPos == if v.Tip() > v.floor then Some(r.At(v.Tip())) else None
  }
}
