/** A table, built by the table's own operations, in which reserving room for n elements
    leaves a load limit below n. */
module TableLimits {
  import opened Probing
  import opened Tables
  import opened TableModel
  import opened TableCore

  /** The k-th of many keys with the same hash. */
  function Colliding(k: nat): Elem { Elem(Key(k, 0), 0) }

  lemma {:induction false} NothingShifted(n: nat)
    ensures ShiftRight(0, n) == 0
  {
    if n > 0 {
      NothingShifted(n - 1);
    }
  }

  /** Four groups: the first k slots of the first one taken by colliding keys, nothing
      else stored, no overflow. */
  ghost predicate Filled(a: Arrays, k: nat) {
    && a.bits == 2 && a.WellFormed() && !a.dummy && |a.slots| == 60 && |a.over| == 4 && k <= 15
    && (forall x :: 0 <= x < k ==> a.slots[x] == Slot(ReducedHash(0), Some(Colliding(x))))
    && (forall x :: k <= x < 59 ==> a.slots[x] == Slot(AVAILABLE, None))
    && a.slots[59].elem == None
    && (forall g :: 0 <= g < 4 ==> a.over[g] == {})
  }

  lemma FirstGroup(a: Arrays, k: nat)
    requires a.WellFormed() && a.bits == 2
    ensures PathAt(a, Colliding(k).key, 0) == 0 && Rank(a, Colliding(k).key, 0) == 0
  {
    NothingShifted(62);
    RankIsFirst(a, Colliding(k).key, 0);
  }

  lemma FillOne(a: Arrays, k: nat, x: nat, b: Arrays)
    requires Filled(a, k) && k < 15 && Placed(a, Colliding(k), x, b)
    ensures Filled(b, k + 1)
  {
    FirstGroup(a, k);
    assert a.slots[k].meta == AVAILABLE;
    assert Rank(a, Colliding(k).key, x / 15) == 0;
    assert x == k;
  }

  /** One more colliding element overflows the first group. */
  lemma Overflows(a: Arrays, x: nat, b: Arrays)
    requires Filled(a, 15) && Placed(a, Colliding(15), x, b)
    ensures 0 in b.over[0] && b.slots[0] == a.slots[0]
  {
    FirstGroup(a, 15);
    assert GroupFull(a, 0);
    assert x / 15 != 0;
  }

  lemma NextIsAbsent(a: Arrays, k: nat)
    requires Filled(a, k)
    ensures Colliding(k).key !in ModelOf(a.slots)
  {
    ModelKeys(a.slots, Colliding(k).key);
  }

  lemma SmallIsGrowable(size: nat)
    requires size <= 16
    ensures Growable(size)
  {
  }

  lemma SizesOfFour()
    ensures BitsFor(31) == 2 && CapacityFor(31) == 59 && InitialMaxLoad(59) == 51
    ensures RehashTarget(15, ForLoad(51)) == 59 && BitsFor(ForLoad(51)) <= 64 && BitsFor(ForLoad(15)) <= 64
  {
    assert Pow2(2) == 4;
    LeastPower(3, 2);
    LeastPower(4, 2);
  }

  method FourGroups() returns (t: TableCore)
    ensures fresh(t) && fresh(t.arrays.slots) && fresh(t.arrays.over)
    ensures t.Valid() && t.size == 0 && t.ml == 51 && Filled(t.arrays.View(), 0)
  {
    SizesOfFour();
    t := new TableCore(31);
  }

  method FillFirst(t: TableCore)
    requires t.Valid() && t.size == 0 && t.ml == 51 && Filled(t.arrays.View(), 0)
    modifies t, t.arrays.slots, t.arrays.over
    ensures t.Valid() && t.size == 15 && t.ml == 51 && Filled(t.arrays.View(), 15)
    ensures t.arrays == old(t.arrays)
  {
    var k := 0;
    while k < 15
      invariant 0 <= k <= 15 && t.arrays == old(t.arrays)
      invariant t.Valid() && t.size == k && t.ml == 51 && Filled(t.arrays.View(), k)
    {
      Fill(t, k);
      k := k + 1;
    }
  }

  method AddBeyond(t: TableCore)
    requires t.Valid() && t.size == 15 && t.ml == 51 && Filled(t.arrays.View(), 15)
    modifies t, t.arrays.slots, t.arrays.over
    ensures t.Valid() && t.size == 16 && t.ml == 51 && t.arrays == old(t.arrays)
    ensures t.arrays.View().Capacity() == 59
    ensures t.arrays.slots[0].elem == Some(Colliding(0)) && 0 in t.arrays.over[0]
  {
    ghost var a := t.arrays.View();
    NextIsAbsent(a, 15);
    SmallIsGrowable(15);
    var _ := t.Emplace(Colliding(15));
    ghost var x :| Placed(a, Colliding(15), x, t.arrays.View());
    Overflows(a, x, t.arrays.View());
  }

  method Fill(t: TableCore, k: nat)
    requires t.Valid() && t.size == k < 15 && t.ml == 51 && Filled(t.arrays.View(), k)
    modifies t, t.arrays.slots, t.arrays.over
    ensures t.Valid() && t.size == k + 1 && t.ml == 51 && Filled(t.arrays.View(), k + 1)
    ensures t.arrays == old(t.arrays)
  {
    ghost var a := t.arrays.View();
    NextIsAbsent(a, k);
    SmallIsGrowable(k);
    var _ := t.Emplace(Colliding(k));
    ghost var x :| Placed(a, Colliding(k), x, t.arrays.View());
    FillOne(a, k, x, t.arrays.View());
  }

  /** Erasing an element of the overflowed group lowers the load limit to 50; the capacity
      is what reserving 51 asks for, so the limit stays where it is. */
  method EraseAndReserve(t: TableCore)
    requires t.Valid() && t.size == 16 && t.ml == 51 && t.arrays.View().Capacity() == 59
    requires t.arrays.slots.Length > 0 && t.arrays.slots[0].elem == Some(Colliding(0))
    requires t.arrays.over.Length > 0 && 0 in t.arrays.over[0]
    modifies t, t.arrays.slots
    ensures t.Valid() && InitialMaxLoad(t.arrays.View().Capacity()) == 51 && t.ml == 50
  {
    EraseFirst(t);
    SizesOfFour();
    t.Reserve(51);
  }

  method EraseFirst(t: TableCore)
    requires t.Valid() && t.size == 16 && t.ml == 51 && t.arrays.View().Capacity() == 59
    requires t.arrays.slots.Length > 0 && t.arrays.slots[0].elem == Some(Colliding(0))
    requires t.arrays.over.Length > 0 && 0 in t.arrays.over[0]
    modifies t, t.arrays.slots
    ensures t.Valid() && t.size == 15 && t.ml == 50 && t.arrays.View().Capacity() == 59
  {
    t.EraseAt(0);
  }

  /** So a table that has only been inserted into and erased from can fall short. */
  method ReserveFallsShort() returns (t: TableCore)
    ensures t.Valid() && InitialMaxLoad(t.arrays.View().Capacity()) == 51 && t.ml == 50
  {
    t := FourGroups();
    FillFirst(t);
    AddBeyond(t);
    EraseAndReserve(t);
  }
}
