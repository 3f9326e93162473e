/** The finite map that a table's slots stand for, and what placing, removing and
    wiping elements do to it. */
module TableModel {
  import opened Counting
  import opened Probing
  import opened Tables

  function ModelOf(slots: seq<Slot>): map<Key, int> {
    if |slots| == 0 then map[] else
      var last := slots[|slots| - 1];
      var rest := ModelOf(slots[..|slots| - 1]);
      if last.elem.Some? then rest[last.elem.value.key := last.elem.value.val] else rest
  }

  ghost predicate KeyAmong(slots: seq<Slot>, k: Key) {
    exists x :: 0 <= x < |slots| && KeyIn(slots[x]) == Some(k)
  }

  lemma {:induction false} ModelKeys(slots: seq<Slot>, k: Key)
    ensures k in ModelOf(slots) <==> KeyAmong(slots, k)
  {
    if slots != [] {
      var last := |slots| - 1;
      ModelKeys(slots[..last], k);
      if KeyAmong(slots[..last], k) {
        var x :| 0 <= x < last && KeyIn(slots[..last][x]) == Some(k);
        assert KeyIn(slots[x]) == Some(k);
      }
      if KeyAmong(slots, k) && KeyIn(slots[last]) != Some(k) {
        var x :| 0 <= x < |slots| && KeyIn(slots[x]) == Some(k);
        assert KeyIn(slots[..last][x]) == Some(k);
      }
    }
  }

  lemma {:induction false} ModelValue(slots: seq<Slot>, x: nat)
    requires DistinctKeys(slots) && x < |slots| && slots[x].elem.Some?
    ensures var e := slots[x].elem.value; e.key in ModelOf(slots) && ModelOf(slots)[e.key] == e.val
  {
    var last := |slots| - 1;
    if x < last {
      assert slots[..last][x] == slots[x];
      ModelValue(slots[..last], x);
    }
  }

  lemma DistinctAfter(slots: seq<Slot>, x: nat, s: Slot)
    requires DistinctKeys(slots) && x < |slots|
    requires s.elem.Some? ==> slots[x].elem == None && !KeyAmong(slots, s.elem.value.key)
    ensures DistinctKeys(slots[x := s])
  {
    if s.elem.Some? {
      assert forall y :: 0 <= y < |slots| ==> KeyIn(slots[y]) != Some(s.elem.value.key);
    }
  }

  /** Filling an empty slot under a new key adds that key. */
  lemma {:induction false} ModelPlace(slots: seq<Slot>, x: nat, s: Slot)
    requires x < |slots| && slots[x].elem == None && s.elem.Some?
    requires !KeyAmong(slots, s.elem.value.key)
    ensures ModelOf(slots[x := s]) == ModelOf(slots)[s.elem.value.key := s.elem.value.val]
  {
    var last := |slots| - 1;
    assert KeyIn(slots[last]) != Some(s.elem.value.key);
    if x == last {
      assert slots[x := s][..last] == slots[..last];
    } else {
      assert slots[x := s][..last] == slots[..last][x := s];
      assert forall y :: 0 <= y < last ==> KeyIn(slots[..last][y]) == KeyIn(slots[y]);
      ModelPlace(slots[..last], x, s);
    }
  }

  /** Emptying a slot removes its key. */
  lemma ModelRemove(slots: seq<Slot>, x: nat, s: Slot)
    requires DistinctKeys(slots) && x < |slots| && slots[x].elem.Some? && s.elem == None
    ensures ModelOf(slots[x := s]) == ModelOf(slots) - {slots[x].elem.value.key}
  {
    var key, val := slots[x].elem.value.key, slots[x].elem.value.val;
    var empty := slots[x := s];
    assert forall y :: 0 <= y < |slots| && y != x ==> KeyIn(slots[y]) != Some(key);
    assert !KeyAmong(empty, key);
    ModelKeys(empty, key);
    ModelPlace(empty, x, slots[x]);
    assert empty[x := slots[x]] == slots;
    assert ModelOf(slots) == ModelOf(empty)[key := val];
  }

  lemma {:induction false} ModelEmpty(slots: seq<Slot>)
    requires forall x :: 0 <= x < |slots| ==> slots[x].elem == None
    ensures ModelOf(slots) == map[] && Sum(slots, Holds) == 0
  {
    if slots != [] {
      ModelEmpty(slots[..|slots| - 1]);
    }
  }

  lemma {:induction false} ModelSize(slots: seq<Slot>)
    requires DistinctKeys(slots)
    ensures |ModelOf(slots)| == Sum(slots, Holds)
  {
    if slots != [] {
      var last := |slots| - 1;
      ModelSize(slots[..last]);
      if slots[last].elem.Some? {
        var k := slots[last].elem.value.key;
        ModelKeys(slots[..last], k);
        assert forall y :: 0 <= y < last ==> KeyIn(slots[..last][y]) != Some(k);
      }
    }
  }

  /** The tables' invariants speak of stored elements; the map says the same. */
  lemma ModelStores(a: Arrays, e: Elem)
    requires UniqueKeys(a)
    ensures Stores(a, e) <==> e.key in ModelOf(a.slots) && ModelOf(a.slots)[e.key] == e.val
  {
    ModelKeys(a.slots, e.key);
    if KeyAmong(a.slots, e.key) {
      var x :| 0 <= x < |a.slots| && KeyIn(a.slots[x]) == Some(e.key);
      ModelValue(a.slots, x);
    }
  }

  lemma SameModelSameElements(a: Arrays, b: Arrays)
    requires UniqueKeys(a) && UniqueKeys(b) && ModelOf(a.slots) == ModelOf(b.slots)
    ensures SameElements(a, b) && Sum(a.slots, Holds) == Sum(b.slots, Holds)
  {
    forall e: Elem
      ensures Stores(a, e) <==> Stores(b, e)
    {
      ModelStores(a, e);
      ModelStores(b, e);
    }
    ModelSize(a.slots);
    ModelSize(b.slots);
  }

  // ----- room -----

  function Occupies(s: Slot): int { if s.meta != AVAILABLE then 1 else 0 }

  function Marks(s: Slot): int { if s.meta == SENTINEL then 1 else 0 }

  lemma SentinelsCounted(a: Arrays)
    requires a.WellFormed() && forall x :: 0 <= x < |a.slots| ==> Settled(a, x)
    ensures Sum(a.slots, Marks) == a.Sentinels()
  {
    var last := |a.slots| - 1;
    if a.dummy {
      assert |a.slots| == 30 by { assert Pow2(1) == 2; }
      assert Settled(a, 14) && Settled(a, 29);
      var slots := a.slots[14 := Slot(AVAILABLE, None)];
      SumUpdate(a.slots, 14, Slot(AVAILABLE, None), Marks);
      forall x | 0 <= x < 29 ensures slots[..29][x].meta != SENTINEL {
        assert Settled(a, x);
      }
      SumConstant(slots[..29], Marks, 0);
    } else {
      forall x | 0 <= x < last ensures a.slots[..last][x].meta != SENTINEL {
        assert Settled(a, x);
      }
      SumConstant(a.slots[..last], Marks, 0);
      assert Settled(a, last);
    }
  }

  lemma SettledOccupied(a: Arrays)
    requires a.WellFormed() && forall x :: 0 <= x < |a.slots| ==> Settled(a, x)
    ensures Sum(a.slots, Occupies) == a.Sentinels() + Sum(a.slots, Holds)
  {
    SentinelsCounted(a);
    forall x | 0 <= x < |a.slots|
      ensures Occupies(a.slots[x]) == Marks(a.slots[x]) + Holds(a.slots[x])
    {
      assert Settled(a, x);
    }
    SumAdd(a.slots, Marks, Holds, Occupies);
  }

  /** Below capacity some slot is available. */
  lemma RoomBelowCapacity(a: Arrays)
    requires Valid(a) && Sum(a.slots, Holds) < a.Capacity()
    ensures exists x :: 0 <= x < |a.slots| && a.slots[x].meta == AVAILABLE
  {
    HoldsNonNegative(a.slots);
    SettledOccupied(a);
    if forall x :: 0 <= x < |a.slots| ==> a.slots[x].meta != AVAILABLE {
      SumConstant(a.slots, Occupies, 1);
    }
  }

  lemma HoldsNonNegative(slots: seq<Slot>)
    ensures Sum(slots, Holds) >= 0
  {
    SumNonNegative(slots, Holds);
  }

  /** x is the lowest available slot of group g. */
  predicate FirstAvailable(a: Arrays, g: nat, x: nat) {
    && 15 * g <= x < 15 * g + 15 <= |a.slots|
    && a.slots[x].meta == AVAILABLE
    && forall y :: 15 * g <= y < x ==> a.slots[y].meta != AVAILABLE
  }

  predicate GroupFull(a: Arrays, g: nat) {
    forall x :: 15 * g <= x < 15 * g + 15 && x < |a.slots| ==> a.slots[x].meta != AVAILABLE
  }

  // ----- keeping the lookup invariant -----

  /** b is a with more overflow bits. */
  ghost predicate MoreOverflow(a: Arrays, b: Arrays) {
    && a.bits == b.bits && a.dummy == b.dummy && a.slots == b.slots && |a.over| == |b.over|
    && forall g :: 0 <= g < |a.over| ==> a.over[g] <= b.over[g]
  }

  lemma MarkedMore(a: Arrays, b: Arrays, key: Key, i: nat)
    requires a.WellFormed() && b.WellFormed() && a.bits == b.bits && |a.over| == |b.over|
    requires forall g :: 0 <= g < |a.over| ==> a.over[g] <= b.over[g]
    requires Marked(a, key, i)
    ensures Marked(b, key, i)
  {
    forall j: nat | j < i
      ensures key.hash % 8 in b.over[PathAt(b, key, j)]
    {
      assert PathAt(b, key, j) == PathAt(a, key, j);
    }
  }

  lemma ReachesMore(a: Arrays, b: Arrays, key: Key, g: nat)
    requires a.WellFormed() && b.WellFormed() && a.bits == b.bits && |a.over| == |b.over| && g < |a.over|
    requires forall g :: 0 <= g < |a.over| ==> a.over[g] <= b.over[g]
    requires Reaches(a, key, g)
    ensures Reaches(b, key, g)
  {
    assert Rank(a, key, g) == Rank(b, key, g);
    MarkedMore(a, b, key, Rank(a, key, g));
  }

  lemma OverflowKeepsValid(a: Arrays, b: Arrays)
    requires Valid(a) && MoreOverflow(a, b)
    ensures Valid(b)
  {
    forall x | 0 <= x < |b.slots|
      ensures Settled(b, x)
    {
      assert Settled(a, x);
    }
    forall x | 0 <= x < |b.slots| && b.slots[x].elem.Some?
      ensures Reaches(b, b.slots[x].elem.value.key, x / 15)
    {
      ReachesMore(a, b, b.slots[x].elem.value.key, x / 15);
    }
  }

  function PutSlot(a: Arrays, x: nat, s: Slot): Arrays
    requires x < |a.slots|
  {
    a.(slots := a.slots[x := s])
  }

  /** Setting an available slot on a marked path keeps the invariant. */
  lemma PlaceKeepsValid(a: Arrays, x: nat, e: Elem, i: nat)
    requires Valid(a) && x < |a.slots| && a.slots[x].meta == AVAILABLE
    requires !KeyAmong(a.slots, e.key)
    requires Marked(a, e.key, i) && PathAt(a, e.key, i) == x / 15
    ensures Valid(PutSlot(a, x, Slot(ReducedHash(e.key.hash), Some(e))))
    ensures ModelOf(a.slots[x := Slot(ReducedHash(e.key.hash), Some(e))]) == ModelOf(a.slots)[e.key := e.val]
    ensures Sum(a.slots[x := Slot(ReducedHash(e.key.hash), Some(e))], Holds) == Sum(a.slots, Holds) + 1
  {
    var s := Slot(ReducedHash(e.key.hash), Some(e));
    assert Settled(a, x);
    PutKeepsValid(a, x, s, i);
    ModelPlace(a.slots, x, s);
    SumUpdate(a.slots, x, s, Holds);
  }

  lemma PutKeepsValid(a: Arrays, x: nat, s: Slot, i: nat)
    requires Valid(a) && x < |a.slots| && a.slots[x].meta == AVAILABLE && a.slots[x].elem == None
    requires s.elem.Some? && s.meta == ReducedHash(s.elem.value.key.hash)
    requires !KeyAmong(a.slots, s.elem.value.key)
    requires Marked(a, s.elem.value.key, i) && PathAt(a, s.elem.value.key, i) == x / 15
    ensures Valid(PutSlot(a, x, s))
  {
    var b := PutSlot(a, x, s);
    var key := s.elem.value.key;
    DistinctAfter(a.slots, x, s);
    RankIsFirst(a, key, i);
    assert Reaches(a, key, x / 15);
    PutSettles(a, x, s);
    forall y | 0 <= y < |b.slots| && b.slots[y].elem.Some?
      ensures Reaches(b, b.slots[y].elem.value.key, y / 15)
    {
      ReachesMore(a, b, b.slots[y].elem.value.key, y / 15);
    }
  }

  lemma PutSettles(a: Arrays, x: nat, s: Slot)
    requires x < |a.slots| && (forall y :: 0 <= y < |a.slots| ==> Settled(a, y)) && a.slots[x].meta != SENTINEL
    requires s.meta != SENTINEL
    requires s.meta < 2 ==> s.elem == None
    requires s.meta >= 2 ==> s.elem.Some? && s.meta == ReducedHash(s.elem.value.key.hash)
    ensures forall y :: 0 <= y < |a.slots| ==> Settled(PutSlot(a, x, s), y)
  {
    forall y | 0 <= y < |a.slots|
      ensures Settled(PutSlot(a, x, s), y)
    {
      assert Settled(a, y);
    }
  }

  /** Resetting an occupied slot keeps the invariant; overflow bits stay. */
  lemma ResetKeepsValid(a: Arrays, x: nat)
    requires Valid(a) && x < |a.slots| && a.slots[x].elem.Some?
    ensures Valid(PutSlot(a, x, Slot(AVAILABLE, None)))
    ensures ModelOf(a.slots[x := Slot(AVAILABLE, None)]) == ModelOf(a.slots) - {a.slots[x].elem.value.key}
    ensures Sum(a.slots[x := Slot(AVAILABLE, None)], Holds) == Sum(a.slots, Holds) - 1
  {
    var b := PutSlot(a, x, Slot(AVAILABLE, None));
    assert Settled(a, x);
    PutSettles(a, x, Slot(AVAILABLE, None));
    DistinctAfter(a.slots, x, Slot(AVAILABLE, None));
    forall y | 0 <= y < |b.slots| && b.slots[y].elem.Some?
      ensures Reaches(b, b.slots[y].elem.value.key, y / 15)
    {
      ReachesMore(a, b, b.slots[y].elem.value.key, y / 15);
    }
    ModelRemove(a.slots, x, Slot(AVAILABLE, None));
    SumUpdate(a.slots, x, Slot(AVAILABLE, None), Holds);
  }

  // ----- why a lookup may stop early -----

  ghost predicate NotInGroup(a: Arrays, key: Key, g: nat) {
    forall x :: 15 * g <= x < 15 * g + 15 && x < |a.slots| ==> KeyIn(a.slots[x]) != Some(key)
  }

  lemma MarkedBit(a: Arrays, key: Key, r: nat, i: nat)
    requires a.WellFormed()
    ensures Marked(a, key, r) && i < r ==> key.hash % 8 in a.over[PathAt(a, key, i)]
  {
  }

  lemma StopIsRightAt(a: Arrays, key: Key, i: nat, x: nat)
    requires Valid(a) && i < |a.over| && x < |a.slots|
    requires forall j: nat :: j <= i ==> NotInGroup(a, key, PathAt(a, key, j))
    requires key.hash % 8 !in a.over[PathAt(a, key, i)] || i + 1 == |a.over|
    ensures KeyIn(a.slots[x]) != Some(key)
  {
    var r := Rank(a, key, x / 15);
    MarkedBit(a, key, r, i);
    if r <= i {
      assert NotInGroup(a, key, PathAt(a, key, r));
    }
  }

  /** If the first i + 1 groups of the path lack the key, and either the last of them
      was never overflowed by such a hash or they are all the groups, the key is
      nowhere. */
  lemma StopIsRight(a: Arrays, key: Key, i: nat)
    requires Valid(a) && i < |a.over|
    requires forall j: nat :: j <= i ==> NotInGroup(a, key, PathAt(a, key, j))
    requires key.hash % 8 !in a.over[PathAt(a, key, i)] || i + 1 == |a.over|
    ensures !KeyAmong(a.slots, key)
  {
    forall x | 0 <= x < |a.slots|
      ensures KeyIn(a.slots[x]) != Some(key)
    {
      StopIsRightAt(a, key, i, x);
    }
  }

  // ----- container-wide changes -----

  /** New arrays for the same elements, of the capacity that growth asks for. */
  ghost predicate Regrown(a: Arrays, size: int, b: Arrays) {
    && Valid(b) && !b.dummy
    && size >= 0 && b.bits == BitsFor(GrowthRequest(size))
    && SameElements(a, b)
    && Sum(b.slots, Holds) == Sum(a.slots, Holds)
  }

  /** The emptied arrays: every byte wiped, the sentinel put back. */
  ghost predicate Wiped(a: Arrays, b: Arrays) {
    && b.bits == a.bits && !b.dummy && |b.slots| == |a.slots| && |b.over| == |a.over|
    && (forall g :: 0 <= g < |b.over| ==> b.over[g] == {})
    && (forall x :: 0 <= x < |b.slots| ==>
         b.slots[x] == Slot(if x + 1 == |b.slots| then SENTINEL else AVAILABLE, None))
  }

  lemma WipedIsEmpty(a: Arrays, b: Arrays)
    requires Valid(a) && !a.dummy && Wiped(a, b)
    ensures Valid(b) && ModelOf(b.slots) == map[] && Sum(b.slots, Holds) == 0
  {
    ModelEmpty(b.slots);
  }
}
