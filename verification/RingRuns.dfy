/** Every history of the block ring agrees with the plain stack and the plain list. */
module RingRuns {
  import opened Types
  import opened Modular
  import opened RingModel

  // ---------- single steps ----------

  lemma {:induction false} EmptyAgrees(size: nat, base: nat)
    requires size >= 2
    ensures Agrees(EmptyRing(size), Stack(base, [], base))
  {
  }

  /** The block is in its slot, and the slot's first entry with its hash is the block itself. */
  predicate Known(r: Ring, e: Entry)
    requires r.Valid()
  {
    var entries := r.slots[r.At(e.id)].entries;
    var p := Position(entries, e.hash);
    p.Some? && entries[p.value] == e
  }

  /** Winding the next block: below a full period nothing is lost, beyond it the oldest id is overwritten. */
  lemma {:induction false} WindAgrees(r: Ring, v: Stack, hash: Hash)
    requires Agrees(r, v) && Known(r, Entry(v.Tip() + 1, hash))
    ensures Agrees(RingReorg(r, Entry(v.Tip() + 1, hash), true), Push(v, hash, |r.slots|))
  {
    var n := |r.slots|;
    var e := Entry(v.Tip() + 1, hash);
    var (r', v') := (RingReorg(r, e, true), Push(v, hash, n));
    forall id | v'.floor < id <= v'.floor + n ensures SlotAgrees(r', v', id) {
      if id == e.id {
        assert LongestEntry(r'.slots[r.At(id)]) == Some(e);
      } else {
        if r.At(id) == r.At(e.id) { SameSlotSameId(n, id, e.id); }
        assert SlotAgrees(r, v, id);
      }
    }
  }

  /** Unwinding the tip: the ring falls back to the parent, unless that has been overwritten. */
  lemma {:induction false} UnwindAgrees(r: Ring, v: Stack)
    requires Agrees(r, v) && v.hashes != []
    ensures Agrees(RingReorg(r, Entry(v.Tip(), v.HashOf(v.Tip())), false), Pop(v))
  {
    var n := |r.slots|;
    var e := Entry(v.Tip(), v.HashOf(v.Tip()));
    var (r', v') := (RingReorg(r, e, false), Pop(v));
    if v.floor < v.Tip() {
      assert SlotAgrees(r, v, v.Tip());
    } else {
      NextPeriod(n, v.Tip());
      assert SlotAgrees(r, v, v.floor + n);
    }
    forall id | v'.floor < id <= v'.floor + n ensures SlotAgrees(r', v', id) {
      if id != v.Tip() {
        if r.At(id) == r.At(e.id) { SameSlotSameId(n, id, e.id); }
        assert SlotAgrees(r, v, id);
      }
    }
    if v.floor < v.Tip() { FallsBack(r, v); }
  }

  /** The parent's slot holds the parent exactly when the parent is above the floor. */
  lemma {:induction false} FallsBack(r: Ring, v: Stack)
    requires Agrees(r, v) && v.floor < v.Tip()
    ensures RingReorg(r, Entry(v.Tip(), v.HashOf(v.Tip())), false).lcPos ==
      if v.floor < v.Tip() - 1 then Some(r.At(v.Tip() - 1)) else None
  {
    var (n, tip) := (|r.slots|, v.Tip());
    PreviousSlot(n, tip);
    assert Before(r, r.At(tip)) == r.At(tip - 1);
    if v.floor < tip - 1 {
      assert SlotAgrees(r, v, tip - 1);
    } else {
      NextPeriod(n, tip - 1);
      assert SlotAgrees(r, v, v.floor + n);
    }
  }

  // ---------- lookups ----------

  /** For every id: above the floor the lookup is the stack's, everywhere else it finds nothing. */
  lemma {:induction false} LookupAgrees(r: Ring, v: Stack, id: nat)
    requires Agrees(r, v)
    ensures LongestAt(r, id) == if v.floor < id <= v.Tip() then Some(v.HashOf(id)) else None
  {
    var n := |r.slots|;
    var k := Representative(n, v.floor, id);
    assert SlotAgrees(r, v, k);
    if v.floor < id <= v.floor + n { SameSlotSameId(n, id, k); }
  }

  /** The latest id and hash are the stack's tip exactly while the tip is above the floor. */
  lemma {:induction false} LatestAgrees(r: Ring, v: Stack)
    requires Agrees(r, v)
    ensures Latest(r) == if v.floor < v.Tip() then Entry(v.Tip(), v.HashOf(v.Tip())) else Entry(0, 0)
  {
    if v.floor < v.Tip() { assert SlotAgrees(r, v, v.Tip()); }
  }

  // ---------- additions and deletions ----------

  lemma {:induction false} AddAgrees(r: Ring, v: Stack, e: Entry)
    requires Agrees(r, v)
    ensures Agrees(RingAdd(r, e), v)
  {
    var r' := RingAdd(r, e);
    forall id | v.floor < id <= v.floor + |r.slots| ensures SlotAgrees(r', v, id) {
      assert SlotAgrees(r, v, id);
    }
  }

  /** Deleting an entry whose slot keeps its longest-chain entry changes no longest-chain lookup. */
  lemma {:induction false} DeleteAgrees(r: Ring, v: Stack, e: Entry)
    requires Agrees(r, v) && Survives(r.slots[r.At(e.id)], e)
    ensures Agrees(RingDelete(r, e), v)
  {
    var r' := RingDelete(r, e);
    SurvivorKeepsItsPlace(r.slots[r.At(e.id)], e);
    forall id | v.floor < id <= v.floor + |r.slots| ensures SlotAgrees(r', v, id) {
      assert SlotAgrees(r, v, id);
    }
  }

  // ---------- histories ----------

  datatype Event = Add(entry: Entry) | Wind(hash: Hash) | Unwind | Delete(entry: Entry)

  /** The ring beside what it stands for: the stack and the list of what was added and not deleted. */
  datatype History = History(ring: Ring, stack: Stack, log: seq<Entry>)

  ghost predicate Possible(h: History, ev: Event)
    requires h.ring.Valid()
  {
    match ev
    case Add(_) => true
    case Wind(hash) => Known(h.ring, Entry(h.stack.Tip() + 1, hash))
    case Unwind => h.stack.hashes != []
    case Delete(e) => Survives(h.ring.slots[h.ring.At(e.id)], e)
  }

  function After(h: History, ev: Event): History
    requires h.ring.Valid()
    requires ev.Unwind? ==> h.stack.hashes != []
  {
    match ev
    case Add(e) => History(RingAdd(h.ring, e), h.stack, h.log + [e])
    case Wind(hash) =>
      History(RingReorg(h.ring, Entry(h.stack.Tip() + 1, hash), true), Push(h.stack, hash, |h.ring.slots|), h.log)
    case Unwind =>
      var tip := h.stack.Tip();
      History(RingReorg(h.ring, Entry(tip, h.stack.HashOf(tip)), false), Pop(h.stack), h.log)
    case Delete(e) => History(RingDelete(h.ring, e), h.stack, Without(h.log, e))
  }

  /** The entries of a list that belong into slot `pos` of `n`, in order. */
  function InSlot(log: seq<Entry>, n: nat, pos: nat): seq<Entry>
    requires n > 0
  {
    if log == [] then []
    else (if log[0].id % n == pos then [log[0]] else []) + InSlot(log[1..], n, pos)
  }

  ghost predicate Consistent(h: History) {
    && Agrees(h.ring, h.stack)
    && forall pos :: 0 <= pos < |h.ring.slots| ==>
         h.ring.slots[pos].entries == InSlot(h.log, |h.ring.slots|, pos)
  }

  lemma {:induction false} InSlotAppend(log: seq<Entry>, e: Entry, n: nat, pos: nat)
    requires n > 0
    ensures InSlot(log + [e], n, pos) == InSlot(log, n, pos) + if e.id % n == pos then [e] else []
  {
    if log == [] {
      assert log + [e] == [e] && [e][1..] == [];
    } else {
      assert (log + [e])[1..] == log[1..] + [e];
      InSlotAppend(log[1..], e, n, pos);
    }
  }

  lemma {:induction false} InSlotWithout(log: seq<Entry>, e: Entry, n: nat, pos: nat)
    requires n > 0
    ensures InSlot(Without(log, e), n, pos) == Without(InSlot(log, n, pos), e)
  {
    if log != [] {
      var head := log[0];
      InSlotWithout(log[1..], e, n, pos);
      var kept := InSlot(log[1..], n, pos);
      if head == e {
        assert Without(log, e) == Without(log[1..], e);
        if e.id % n == pos { assert ([e] + kept)[1..] == kept; } else { assert InSlot(log, n, pos) == kept; }
      } else {
        var rest := Without(log[1..], e);
        assert Without(log, e) == [head] + rest && ([head] + rest)[1..] == rest;
        if head.id % n == pos {
          assert InSlot(log, n, pos) == [head] + kept && ([head] + kept)[1..] == kept;
        } else {
          assert InSlot(log, n, pos) == kept;
        }
      }
    }
  }

  lemma {:induction false} WithoutAbsent(log: seq<Entry>, e: Entry)
    requires e !in log
    ensures Without(log, e) == log
  {
    if log != [] {
      WithoutAbsent(log[1..], e);
      assert log == [log[0]] + log[1..];
    }
  }

  lemma {:induction false} InSlotMembers(log: seq<Entry>, n: nat, pos: nat, e: Entry)
    requires n > 0
    ensures e in InSlot(log, n, pos) ==> e.id % n == pos
  {
    if log != [] { InSlotMembers(log[1..], n, pos, e); }
  }

  /** Every possible event keeps the ring consistent with stack and list. */
  lemma {:induction false} EventKeepsConsistency(h: History, ev: Event)
    requires Consistent(h) && Possible(h, ev)
    ensures Consistent(After(h, ev))
  {
    var n := |h.ring.slots|;
    match ev {
      case Add(e) =>
        AddAgrees(h.ring, h.stack, e);
        forall pos | 0 <= pos < n ensures After(h, ev).ring.slots[pos].entries == InSlot(h.log + [e], n, pos) {
          InSlotAppend(h.log, e, n, pos);
        }
      case Wind(hash) =>
        WindAgrees(h.ring, h.stack, hash);
      case Unwind =>
        UnwindAgrees(h.ring, h.stack);
      case Delete(e) =>
        DeleteAgrees(h.ring, h.stack, e);
        forall pos | 0 <= pos < n ensures After(h, ev).ring.slots[pos].entries == InSlot(Without(h.log, e), n, pos) {
          InSlotWithout(h.log, e, n, pos);
          InSlotMembers(h.log, n, pos, e);
          if pos != h.ring.At(e.id) { WithoutAbsent(InSlot(h.log, n, pos), e); }
        }
    }
  }

  ghost predicate PossibleRun(h: History, evs: seq<Event>)
    requires Consistent(h)
    decreases evs
  {
    evs == [] || (Possible(h, evs[0]) && (EventKeepsConsistency(h, evs[0]); PossibleRun(After(h, evs[0]), evs[1..])))
  }

  ghost function RunEvents(h: History, evs: seq<Event>): History
    requires Consistent(h) && PossibleRun(h, evs)
    decreases evs
  {
    if evs == [] then h
    else
      EventKeepsConsistency(h, evs[0]);
      RunEvents(After(h, evs[0]), evs[1..])
  }

  lemma {:induction false} HashesForSlot(log: seq<Entry>, n: nat, id: nat)
    requires n > 0
    ensures HashesFor(InSlot(log, n, id % n), id) == HashesFor(log, id)
  {
    if log != [] {
      HashesForSlot(log[1..], n, id);
      var kept := InSlot(log[1..], n, id % n);
      if log[0].id % n == id % n {
        assert ([log[0]] + kept)[1..] == kept;
      } else {
        assert InSlot(log, n, id % n) == kept;
        assert HashesFor(log, id) == HashesFor(log[1..], id);
      }
    }
  }

  /**
   * After any possible history of additions, deletions, winds and unwinds, with ids that collide in any
   * way, every longest-chain lookup is the stack's above the floor, the tip is the stack's, and the
   * hashes found for an id are those added for it and not deleted, in order of arrival.
   */
  lemma {:induction false} RingAgreesWithHistory(h: History, evs: seq<Event>, id: nat)
    requires Consistent(h) && PossibleRun(h, evs)
    ensures var last := RunEvents(h, evs);
      && last.ring.Valid() && last.stack.base <= last.stack.floor
      && LongestAt(last.ring, id) ==
           (if last.stack.floor < id <= last.stack.Tip() then Some(last.stack.HashOf(id)) else None)
      && HashesAt(last.ring, id) == HashesFor(last.log, id)
      && Latest(last.ring) ==
           (if last.stack.floor < last.stack.Tip() then Entry(last.stack.Tip(), last.stack.HashOf(last.stack.Tip()))
            else Entry(0, 0))
    decreases evs
  {
    if evs == [] {
      LookupAgrees(h.ring, h.stack, id);
      LatestAgrees(h.ring, h.stack);
      HashesForSlot(h.log, |h.ring.slots|, id);
    } else {
      EventKeepsConsistency(h, evs[0]);
      RingAgreesWithHistory(After(h, evs[0]), evs[1..], id);
    }
  }

  // ---------- arbitrary use ----------

  /** Any call that changes the ring, whether or not it makes sense for the chain. */
  datatype Call = AddCall(entry: Entry) | DeleteCall(entry: Entry) | ReorgCall(entry: Entry, longest: bool)

  function Called(r: Ring, c: Call): (r': Ring)
    requires r.Valid()
    ensures r'.Valid() && |r'.slots| == |r.slots|
  {
    match c
    case AddCall(e) => RingAdd(r, e)
    case DeleteCall(e) => RingDelete(r, e)
    case ReorgCall(e, longest) => RingReorg(r, e, longest)
  }

  function Logged(log: seq<Entry>, c: Call): seq<Entry> {
    match c
    case AddCall(e) => log + [e]
    case DeleteCall(e) => Without(log, e)
    case ReorgCall(_, _) => log
  }

  ghost predicate SlotsHold(r: Ring, log: seq<Entry>) {
    r.Valid() && forall pos :: 0 <= pos < |r.slots| ==> r.slots[pos].entries == InSlot(log, |r.slots|, pos)
  }

  lemma {:induction false} CallKeepsSlots(r: Ring, log: seq<Entry>, c: Call)
    requires SlotsHold(r, log)
    ensures SlotsHold(Called(r, c), Logged(log, c))
  {
    var n := |r.slots|;
    match c {
      case AddCall(e) =>
        forall pos | 0 <= pos < n ensures Called(r, c).slots[pos].entries == InSlot(log + [e], n, pos) {
          InSlotAppend(log, e, n, pos);
        }
      case DeleteCall(e) =>
        forall pos | 0 <= pos < n ensures Called(r, c).slots[pos].entries == InSlot(Without(log, e), n, pos) {
          InSlotWithout(log, e, n, pos);
          InSlotMembers(log, n, pos, e);
          if pos != r.At(e.id) { WithoutAbsent(InSlot(log, n, pos), e); }
        }
      case ReorgCall(_, _) =>
    }
  }

  function CalledAll(r: Ring, cs: seq<Call>): (r': Ring)
    requires r.Valid()
    ensures r'.Valid()
    decreases cs
  {
    if cs == [] then r else CalledAll(Called(r, cs[0]), cs[1..])
  }

  function LoggedAll(log: seq<Entry>, cs: seq<Call>): seq<Entry>
    decreases cs
  {
    if cs == [] then log else LoggedAll(Logged(log, cs[0]), cs[1..])
  }

  /**
   * After any calls whatever, the hashes found for an id are those added for it and not deleted since,
   * in order of arrival.
   */
  lemma {:induction false} HashLookupIsExact(r: Ring, log: seq<Entry>, cs: seq<Call>, id: nat)
    requires SlotsHold(r, log)
    ensures HashesAt(CalledAll(r, cs), id) == HashesFor(LoggedAll(log, cs), id)
    decreases cs
  {
    if cs == [] {
      HashesForSlot(log, |r.slots|, id);
    } else {
      CallKeepsSlots(r, log, cs[0]);
      HashLookupIsExact(Called(r, cs[0]), Logged(log, cs[0]), cs[1..], id);
    }
  }

  // ---------- how far the floor can rise ----------

  /** The highest tip reached on the way. */
  ghost function HighestTip(h: History, evs: seq<Event>): nat
    requires Consistent(h) && PossibleRun(h, evs)
    decreases evs
  {
    if evs == [] then h.stack.Tip() else
      EventKeepsConsistency(h, evs[0]);
      Max(h.stack.Tip(), HighestTip(After(h, evs[0]), evs[1..]))
  }

  function Max(a: nat, b: nat): nat {
    if a > b then a else b
  }

  function Min(a: int, b: int): int {
    if a < b then a else b
  }

  lemma {:induction false} HighestIsAbove(h: History, evs: seq<Event>)
    requires Consistent(h) && PossibleRun(h, evs)
    ensures h.stack.Tip() <= HighestTip(h, evs)
  {
  }

  /** Only the highest tip matters: an id is never forgotten while no tip has been a whole ring above it. */
  lemma {:induction false} FloorStaysLow(h: History, evs: seq<Event>, line: nat)
    requires Consistent(h) && PossibleRun(h, evs) && h.stack.floor <= line
    requires HighestTip(h, evs) <= line + |h.ring.slots|
    ensures RunEvents(h, evs).stack.floor <= line
    decreases evs
  {
    if evs != [] {
      EventKeepsConsistency(h, evs[0]);
      HighestIsAbove(After(h, evs[0]), evs[1..]);
      FloorStaysLow(After(h, evs[0]), evs[1..], line);
    }
  }

  /** An empty ring, about to receive block `base + 1`. */
  ghost function Start(size: nat, base: nat): (h: History)
    requires size >= 2
    ensures Consistent(h)
  {
    EmptyAgrees(size, base);
    History(EmptyRing(size), Stack(base, [], base), [])
  }

  /**
   * From an empty ring, after any history of possible events: a block less than a whole ring below the
   * highest tip ever reached is found exactly when it is on the plain stack, and while the tip itself is
   * that close, the latest id and hash are the stack's.
   */
  lemma {:induction false} RingIsTheStack(size: nat, base: nat, evs: seq<Event>, id: nat)
    requires size >= 2 && PossibleRun(Start(size, base), evs)
    ensures var h := Start(size, base);
      var last := RunEvents(h, evs);
      && last.ring.Valid()
      && (base < id && HighestTip(h, evs) < id + size ==>
            LongestAt(last.ring, id) == if last.stack.Holds(id) then Some(last.stack.HashOf(id)) else None)
      && (base < last.stack.Tip() && HighestTip(h, evs) < last.stack.Tip() + size ==>
            last.stack.Holds(last.stack.Tip())
            && Latest(last.ring) == Entry(last.stack.Tip(), last.stack.HashOf(last.stack.Tip())))
  {
    var h := Start(size, base);
    var last := RunEvents(h, evs);
    RingAgreesWithHistory(h, evs, id);
    BaseStays(h, evs);
    if base < id && HighestTip(h, evs) < id + size { FloorStaysLow(h, evs, id - 1); }
    if base < last.stack.Tip() && HighestTip(h, evs) < last.stack.Tip() + size {
      FloorStaysLow(h, evs, last.stack.Tip() - 1);
    }
  }

  lemma {:induction false} BaseStays(h: History, evs: seq<Event>)
    requires Consistent(h) && PossibleRun(h, evs)
    ensures RunEvents(h, evs).stack.base == h.stack.base
    decreases evs
  {
    if evs != [] {
      EventKeepsConsistency(h, evs[0]);
      BaseStays(After(h, evs[0]), evs[1..]);
    }
  }

  // ---------- there and back ----------

  /** Winding some blocks and unwinding all of them. */
  function Detour(hashes: seq<Hash>): seq<Event> {
    if hashes == [] then [] else [Event.Wind(hashes[0])] + Detour(hashes[1..]) + [Unwind]
  }

  lemma {:induction false} RunThenOne(h: History, evs: seq<Event>, ev: Event)
    requires Consistent(h) && PossibleRun(h, evs + [ev])
    ensures PossibleRun(h, evs) && Consistent(RunEvents(h, evs)) && Possible(RunEvents(h, evs), ev)
    ensures RunEvents(h, evs + [ev]) == After(RunEvents(h, evs), ev)
    decreases evs
  {
    if evs == [] {
      assert evs + [ev] == [ev];
      EventKeepsConsistency(h, ev);
    } else {
      assert (evs + [ev])[0] == evs[0] && (evs + [ev])[1..] == evs[1..] + [ev];
      EventKeepsConsistency(h, evs[0]);
      RunThenOne(After(h, evs[0]), evs[1..], ev);
    }
  }

  /** The floor once the ring has been wound `k` blocks beyond the tip and back. */
  function DetourFloor(v: Stack, k: nat, size: nat): int {
    var reached := Min(v.Tip(), v.Tip() + k - size);
    if v.floor > reached then v.floor else reached
  }

  lemma {:induction false} DetourFloorStep(v: Stack, hash: Hash, k: nat, size: nat)
    requires v.base <= v.floor <= v.Tip() <= v.floor + size
    ensures var up := Push(v, hash, size);
      && DetourFloor(up, k, size) >= 0
      && Pop(up.(floor := DetourFloor(up, k, size))) == v.(floor := DetourFloor(v, k + 1, size))
  {
    assert Push(v, hash, size).hashes[..|v.hashes|] == v.hashes;
  }

  /**
   * Winding blocks and unwinding them again brings back the very same chain; what the ring has forgotten
   * meanwhile is exactly what lies a whole ring below the highest tip.
   */
  lemma {:induction false} DetourRestoresStack(h: History, hashes: seq<Hash>)
    requires Consistent(h) && PossibleRun(h, Detour(hashes))
    ensures RunEvents(h, Detour(hashes)).stack ==
      h.stack.(floor := DetourFloor(h.stack, |hashes|, |h.ring.slots|))
    decreases hashes
  {
    if hashes != [] {
      var (ev, inner) := (Event.Wind(hashes[0]), Detour(hashes[1..]));
      assert Detour(hashes)[0] == ev && Detour(hashes)[1..] == inner + [Unwind];
      EventKeepsConsistency(h, ev);
      var next := After(h, ev);
      RunThenOne(next, inner, Unwind);
      DetourRestoresStack(next, hashes[1..]);
      DetourFloorStep(h.stack, hashes[0], |hashes| - 1, |h.ring.slots|);
    }
  }

  /**
   * So after a detour every lookup above the new floor is what it was before, and so is the tip while it
   * is above that floor; a detour shorter than the free part of the ring restores all of them.
   */
  lemma {:induction false} DetourRestoresLookups(h: History, hashes: seq<Hash>, id: nat)
    requires Consistent(h) && PossibleRun(h, Detour(hashes))
    ensures var (last, floor) := (RunEvents(h, Detour(hashes)), DetourFloor(h.stack, |hashes|, |h.ring.slots|));
      && last.ring.Valid()
      && (id > floor || h.stack.Tip() + |hashes| <= h.stack.floor + |h.ring.slots| ==>
            LongestAt(last.ring, id) == LongestAt(h.ring, id))
      && (h.stack.Tip() > floor ==> Latest(last.ring) == Latest(h.ring))
  {
    var evs := Detour(hashes);
    DetourRestoresStack(h, hashes);
    RingAgreesWithHistory(h, evs, id);
    LookupAgrees(h.ring, h.stack, id);
    LatestAgrees(h.ring, h.stack);
  }
}
