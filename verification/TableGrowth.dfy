/** Larger arrays for the same elements exist: what rehashing builds can always be built. */
module TableGrowth {
  import opened Counting
  import opened Probing
  import opened Tables
  import opened TableModel
  import opened TableCore

  /** A search for a slot that has come this far ends with the element placed. */
  lemma {:induction false} SearchPlaces(a: Arrays, b: Arrays, e: Elem, g: nat, i: nat) returns (x: nat, c: Arrays)
    requires Tables.Valid(a) && Searching(a, b, e.key, g, i) && !KeyAmong(a.slots, e.key)
    ensures Emplaced(a, e, x, c)
    decreases |a.over| - i
  {
    if GroupFull(b, g) {
      var marked := WithMark(b, g, e.key);
      MarkStep(a, b, marked, e.key, g, i);
      x, c := SearchPlaces(a, marked, e, PathAt(a, e.key, i + 1), i + 1);
    } else {
      x := LowestFree(b, g, 0);
      PlaceAfterSearch(a, b, e, g, i, x);
      c := PutSlot(b, x, Slot(ReducedHash(e.key.hash), Some(e)));
    }
  }

  lemma {:induction false} LowestFree(a: Arrays, g: nat, n: nat) returns (x: nat)
    requires 15 * g + 15 <= |a.slots| && n < 15 && !GroupFull(a, g)
    requires forall y :: 15 * g <= y < 15 * g + n ==> a.slots[y].meta != AVAILABLE
    ensures FirstAvailable(a, g, x)
    decreases 15 - n
  {
    if a.slots[15 * g + n].meta == AVAILABLE {
      x := 15 * g + n;
    } else if n < 14 {
      x := LowestFree(a, g, n + 1);
    }
  }

  /** Wherever there is a free slot a new element can be placed. */
  lemma PlaceExists(a: Arrays, e: Elem) returns (x: nat, b: Arrays)
    requires Tables.Valid(a) && !KeyAmong(a.slots, e.key)
    requires exists y :: 0 <= y < |a.slots| && a.slots[y].meta == AVAILABLE
    ensures Emplaced(a, e, x, b)
  {
    SearchBegins(a, e.key);
    x, b := SearchPlaces(a, a, e, Home(a.bits, e.key), 0);
  }

  lemma EmptyExists(bits: nat) returns (a: Arrays)
    requires 1 <= bits <= 64
    ensures Tables.Valid(a) && a.bits == bits && !a.dummy
    ensures ModelOf(a.slots) == map[] && Sum(a.slots, Holds) == 0
  {
    var groups := Pow2(bits);
    var slots := seq(15 * groups, x => Slot(if x + 1 == 15 * groups then SENTINEL else AVAILABLE, None));
    a := Arrays(bits, false, slots, seq(groups, _ => {}));
    WipedIsEmpty(a, a);
  }

  lemma TransferOne(source: Arrays, n: nat, before: Arrays, target: Arrays) returns (after: Arrays)
    requires Transferred(source, n, before, target) && Tables.Valid(target) && n < |source.slots|
    requires SharesNoKey(source, before) && UniqueKeys(source)
    requires Sum(before.slots, Holds) + Sum(source.slots, Holds) <= before.Capacity()
    ensures Transferred(source, n + 1, before, after) && Tables.Valid(after)
    ensures after.bits == target.bits && after.dummy == target.dummy
  {
    after := target;
    if source.slots[n].elem.Some? {
      NextIsNew(source, n, before, target);
      RoomBelowCapacity(target);
      var x;
      x, after := PlaceExists(target, source.slots[n].elem.value);
    }
    TransferStep(source, n, before, target, after);
  }

  lemma {:induction false} TransferExists(source: Arrays, n: nat, before: Arrays) returns (target: Arrays)
    requires Tables.Valid(before) && n <= |source.slots| && SharesNoKey(source, before) && UniqueKeys(source)
    requires Sum(before.slots, Holds) + Sum(source.slots, Holds) <= before.Capacity()
    ensures Transferred(source, n, before, target) && Tables.Valid(target)
    ensures target.bits == before.bits && target.dummy == before.dummy
  {
    if n == 0 {
      target := before;
      assert source.slots[..0] == [];
    } else {
      target := TransferExists(source, n - 1, before);
      target := TransferOne(source, n - 1, before, target);
    }
  }

  /** The arrays that growth asks for exist. */
  lemma RegrownExists(a: Arrays, size: nat) returns (b: Arrays)
    requires Tables.Valid(a) && Sum(a.slots, Holds) == size && Growable(size)
    ensures Regrown(a, size, b)
  {
    var empty := EmptyExists(BitsFor(GrowthRequest(size)));
    GrowthMakesRoom(size);
    b := TransferExists(a, |a.slots|, empty);
    assert a.slots[..|a.slots|] == a.slots;
    assert map[] + ModelOf(a.slots) == ModelOf(a.slots);
    SameModelSameElements(a, b);
  }
}
