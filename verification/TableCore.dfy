/** The sequential table: in-place groups and elements, quadratic probing, growth at a
    load limit that drifts down on erasure. Refines a finite map. */
module TableCore {
  import opened Counting
  import opened Probing
  import opened Tables
  import opened TableModel

  /** The prober: `pos` walks the groups by steps of 1, 2, 3 and so on. */
  class Prober {
    var pos: nat
    var step: nat

    constructor (home: nat)
      ensures pos == home && step == 0
    {
      pos, step := home, 0;
    }

    /** Moves to the next group; false once the whole array has been visited. */
    method Next(groups: nat, ghost home: nat) returns (more: bool)
      requires home < groups && pos == Probe(home, step, groups)
      modifies this
      ensures step == old(step) + 1 && pos == Probe(home, step, groups)
      ensures more <==> step < groups
    {
      step := step + 1;
      pos := Masked(pos + step, groups);
      more := step <= groups - 1;
    }
  }

  /** The group and element arrays; without storage, the two dummy groups. */
  class TableArrays {
    const bits: nat
    const dummy: bool
    const slots: array<Slot>
    const over: array<set<nat>>

    ghost function View(): Arrays
      reads slots, over
    {
      Arrays(bits, dummy, slots[..], over[..])
    }

    /** Arrays with room for n elements. */
    constructor (n: nat)
      requires BitsFor(n) <= 64
      ensures fresh(slots) && fresh(over)
      ensures bits == BitsFor(n) && dummy == (n == 0)
      ensures Valid(View()) && ModelOf(View().slots) == map[] && Sum(View().slots, Holds) == 0
      ensures View().Capacity() == if n == 0 then 0 else CapacityFor(n)
      ensures n > 0 ==> Wiped(View(), View())
    {
      bits, dummy := BitsFor(n), n == 0;
      var groups := Pow2(BitsFor(n));
      slots := new Slot[15 * groups](x =>
        Slot(if x + 1 == 15 * groups || (n == 0 && x % 15 == 14) then SENTINEL else AVAILABLE, None));
      over := new set<nat>[groups](_ => {});
      new;
      ModelEmpty(View().slots);
    }

    method Capacity() returns (c: nat)
      requires View().WellFormed()
      ensures c == View().Capacity()
    {
      c := if dummy then 0 else slots.Length - 1;
    }

    /** Places a new element in the first available slot along its path, marking the
        full groups passed over. */
    method EmplaceAt(e: Elem) returns (x: nat)
      requires Valid(View())
      requires !KeyAmong(View().slots, e.key)
      requires exists y :: 0 <= y < slots.Length && slots[y].meta == AVAILABLE
      modifies slots, over
      ensures Emplaced(old(View()), e, x, View())
    {
      ghost var before := View();
      SearchBegins(before, e.key);
      var home := Home(bits, e.key);
      var pb := new Prober(home);
      while true
        invariant fresh(pb) && Searching(before, View(), e.key, pb.pos, pb.step)
        decreases over.Length - pb.step
      {
        var found;
        found, x := PlaceInGroup(pb.pos, e, before, pb.step);
        if found {
          return;
        }
        var more := pb.Next(over.Length, home);
      }
    }

    /** One group's turn: places the element there, or marks the group. */
    method PlaceInGroup(g: nat, e: Elem, ghost before: Arrays, ghost i: nat) returns (found: bool, x: nat)
      requires Valid(before) && Searching(before, View(), e.key, g, i)
      requires !KeyAmong(before.slots, e.key)
      modifies slots, over
      ensures found ==> Emplaced(before, e, x, View())
      ensures !found ==>
        && i + 1 < |before.over| && PathAt(before, e.key, i + 1) == Masked(g + (i + 1), |before.over|)
        && Searching(before, View(), e.key, PathAt(before, e.key, i + 1), i + 1)
    {
      ghost var now := View();
      var n;
      found, n := FirstAvailable(g);
      x := 15 * g + n;
      if found {
        PlaceAfterSearch(before, now, e, g, i, x);
        SetSlot(x, Slot(ReducedHash(e.key.hash), Some(e)));
      } else {
        MarkOverflow(g, e.key);
        MarkStep(before, now, View(), e.key, g, i);
      }
    }

    method SetSlot(x: nat, s: Slot)
      requires x < slots.Length
      modifies slots
      ensures View() == PutSlot(old(View()), x, s)
    {
      slots[x] := s;
    }

    method MarkOverflow(g: nat, key: Key)
      requires g < over.Length
      modifies over
      ensures View() == WithMark(old(View()), g, key)
    {
      over[g] := over[g] + {key.hash % 8};
    }

    /** The lowest available slot of group g. */
    method FirstAvailable(g: nat) returns (found: bool, n: nat)
      requires g < over.Length && slots.Length == 15 * over.Length
      ensures if found then TableModel.FirstAvailable(View(), g, 15 * g + n) else GroupFull(View(), g)
    {
      n := 0;
      while n < 15
        invariant n <= 15
        invariant forall x :: 15 * g <= x < 15 * g + n ==> slots[x].meta != AVAILABLE
      {
        if slots[15 * g + n].meta == AVAILABLE {
          found := true;
          return;
        }
        n := n + 1;
      }
      found := false;
    }
  }

  function WithMark(a: Arrays, g: nat, key: Key): Arrays
    requires g < |a.over|
  {
    a.(over := a.over[g := a.over[g] + {key.hash % 8}])
  }

  /** b is a with the overflow bit of `key` set in the first i groups of its path, and in
      no others. */
  ghost predicate MarkedExactly(a: Arrays, b: Arrays, key: Key, i: nat)
    requires a.WellFormed()
  {
    && b == a.(over := b.over) && |b.over| == |a.over|
    && forall g :: 0 <= g < |a.over| ==>
         b.over[g] == if Rank(a, key, g) < i then a.over[g] + {key.hash % 8} else a.over[g]
  }

  /** b is a with the element placed in slot x: the lowest available one of the first
      group on its path that is not full. The groups before it are marked, no others. */
  ghost predicate Placed(a: Arrays, e: Elem, x: nat, b: Arrays) {
    && a.WellFormed() && x < |a.slots| == |b.slots|
    && FirstAvailable(a, x / 15, x)
    && (forall j: nat :: j < Rank(a, e.key, x / 15) ==> GroupFull(a, PathAt(a, e.key, j)))
    && b.slots == a.slots[x := Slot(ReducedHash(e.key.hash), Some(e))]
    && MarkedExactly(a, b.(slots := a.slots), e.key, Rank(a, e.key, x / 15))
  }

  /** The same, with what it means for the invariant and the map. */
  ghost predicate Emplaced(a: Arrays, e: Elem, x: nat, b: Arrays) {
    && Valid(b) && Placed(a, e, x, b)
    && ModelOf(b.slots) == ModelOf(a.slots)[e.key := e.val]
    && Sum(b.slots, Holds) == Sum(a.slots, Holds) + 1
  }

  /** The search for an available slot for `key` has come to step i at group g, having
      passed and marked only full groups. */
  ghost predicate Searching(a: Arrays, b: Arrays, key: Key, g: nat, i: nat) {
    && a.WellFormed() && b.WellFormed() && MarkedExactly(a, b, key, i)
    && i < |a.over| && g == PathAt(a, key, i)
    && Marked(b, key, i)
    && (forall j: nat :: j < i ==> GroupFull(a, PathAt(a, key, j)))
    && (exists y :: 0 <= y < |a.slots| && a.slots[y].meta == AVAILABLE)
  }

  lemma SearchBegins(a: Arrays, key: Key)
    requires a.WellFormed() && exists y :: 0 <= y < |a.slots| && a.slots[y].meta == AVAILABLE
    ensures Searching(a, a, key, Home(a.bits, key), 0)
  {
    assert PathAt(a, key, 0) == Home(a.bits, key);
  }

  lemma PlaceAfterSearch(a: Arrays, b: Arrays, e: Elem, g: nat, i: nat, x: nat)
    requires Valid(a) && Searching(a, b, e.key, g, i) && FirstAvailable(b, g, x)
    requires !KeyAmong(a.slots, e.key)
    ensures x < |b.slots| && Emplaced(a, e, x, PutSlot(b, x, Slot(ReducedHash(e.key.hash), Some(e))))
  {
    OverflowKeepsValid(a, b);
    assert PathAt(b, e.key, i) == PathAt(a, e.key, i) == x / 15;
    RankIsFirst(a, e.key, i);
    PlaceKeepsValid(b, x, e, i);
  }

  lemma MarkStep(a: Arrays, b: Arrays, c: Arrays, key: Key, g: nat, i: nat)
    requires Searching(a, b, key, g, i) && c == WithMark(b, g, key) && GroupFull(b, g)
    ensures i + 1 < |a.over| && PathAt(a, key, i + 1) == Masked(g + (i + 1), |a.over|)
    ensures Searching(a, c, key, PathAt(a, key, i + 1), i + 1)
  {
    MoreGroups(a, b, key, g, i);
    MarkedStep(a, b, c, key, g, i);
    SearchMoves(a, c, key, i + 1);
    PathStep(a, key, i);
  }

  lemma PathStep(a: Arrays, key: Key, i: nat)
    requires a.WellFormed()
    ensures PathAt(a, key, i + 1) == Masked(PathAt(a, key, i) + (i + 1), |a.over|)
  {
  }

  lemma MarkedStep(a: Arrays, b: Arrays, c: Arrays, key: Key, g: nat, i: nat)
    requires a.WellFormed() && b.WellFormed() && MarkedExactly(a, b, key, i) && Marked(b, key, i)
    requires i < |a.over| && g == PathAt(a, key, i) && c == WithMark(b, g, key)
    ensures c.WellFormed() && MarkedExactly(a, c, key, i + 1) && Marked(c, key, i + 1)
  {
    assert PathAt(b, key, i) == g;
    MarkedNext(b, c, key, g, i);
    MarkOneMore(a, b, c, key, g, i);
  }

  lemma SearchMoves(a: Arrays, c: Arrays, key: Key, i: nat)
    requires a.WellFormed() && c.WellFormed() && MarkedExactly(a, c, key, i) && i < |a.over|
    requires Marked(c, key, i) && forall j: nat :: j < i ==> GroupFull(a, PathAt(a, key, j))
    requires exists y :: 0 <= y < |a.slots| && a.slots[y].meta == AVAILABLE
    ensures Searching(a, c, key, PathAt(a, key, i), i)
  {
  }

  lemma MoreGroups(a: Arrays, b: Arrays, key: Key, g: nat, i: nat)
    requires Searching(a, b, key, g, i) && GroupFull(b, g)
    ensures i + 1 < |a.over| && forall j: nat :: j <= i ==> GroupFull(a, PathAt(a, key, j))
  {
    AllFullUpTo(a, b, key, g, i);
    NotAllFull(a, key, i);
  }

  lemma AllFullUpTo(a: Arrays, b: Arrays, key: Key, g: nat, i: nat)
    requires a.WellFormed() && b.slots == a.slots && g == PathAt(a, key, i) && GroupFull(b, g)
    requires forall j: nat :: j < i ==> GroupFull(a, PathAt(a, key, j))
    ensures forall j: nat :: j <= i ==> GroupFull(a, PathAt(a, key, j))
  {
  }

  lemma MarkedNext(b: Arrays, c: Arrays, key: Key, g: nat, i: nat)
    requires b.WellFormed() && c.WellFormed() && g == PathAt(b, key, i) && c == WithMark(b, g, key)
    requires Marked(b, key, i)
    ensures Marked(c, key, i + 1)
  {
    MarkedMore(b, c, key, i);
    assert PathAt(c, key, i) == PathAt(b, key, i);
  }

  lemma MarkOneMore(a: Arrays, b: Arrays, c: Arrays, key: Key, g: nat, i: nat)
    requires a.WellFormed() && MarkedExactly(a, b, key, i) && i < |a.over| && g == PathAt(a, key, i)
    requires c == WithMark(b, g, key)
    ensures MarkedExactly(a, c, key, i + 1)
  {
    RankIsFirst(a, key, i);
  }

  /** An available slot is in a group that probing has still to reach. */
  lemma NotAllFull(a: Arrays, key: Key, i: nat)
    requires a.WellFormed() && i < |a.over|
    requires exists y :: 0 <= y < |a.slots| && a.slots[y].meta == AVAILABLE
    requires forall j: nat :: j <= i ==> GroupFull(a, PathAt(a, key, j))
    ensures i + 1 < |a.over|
  {
    var y :| 0 <= y < |a.slots| && a.slots[y].meta == AVAILABLE;
    var r := Rank(a, key, y / 15);
    FullExcludes(a, key, r, y);
  }

  lemma FullExcludes(a: Arrays, key: Key, r: nat, y: nat)
    requires a.WellFormed() && y < |a.slots| && a.slots[y].meta == AVAILABLE && PathAt(a, key, r) == y / 15
    ensures !GroupFull(a, PathAt(a, key, r))
  {
    assert 15 * (y / 15) <= y < 15 * (y / 15) + 15;
  }

  // ----- moving elements to other arrays -----

  /** target has taken over the elements of the first n slots of source. */
  ghost predicate Transferred(source: Arrays, n: nat, before: Arrays, target: Arrays) {
    && n <= |source.slots| && target.Capacity() == before.Capacity()
    && ModelOf(target.slots) == ModelOf(before.slots) + ModelOf(source.slots[..n])
    && Sum(target.slots, Holds) == Sum(before.slots, Holds) + Sum(source.slots[..n], Holds)
  }

  ghost predicate SharesNoKey(a: Arrays, b: Arrays) {
    forall k :: k in ModelOf(a.slots) ==> k !in ModelOf(b.slots)
  }

  lemma {:induction false} PrefixHolds(slots: seq<Slot>, n: nat)
    requires n <= |slots|
    ensures Sum(slots[..n], Holds) <= Sum(slots, Holds)
    ensures n < |slots| && slots[n].elem.Some? ==> Sum(slots[..n], Holds) < Sum(slots, Holds)
  {
    assert slots == slots[..n] + slots[n..];
    SumConcat(slots[..n], slots[n..], Holds);
    SumNonNegative(slots[n..], Holds);
    if n < |slots| && slots[n].elem.Some? {
      assert slots[n..][0] == slots[n];
    }
  }

  lemma PrefixGrows(slots: seq<Slot>, n: nat)
    requires n < |slots|
    ensures slots[..n + 1][..n] == slots[..n] && slots[..n + 1][n] == slots[n]
    ensures Sum(slots[..n + 1], Holds) == Sum(slots[..n], Holds) + Holds(slots[n])
    ensures ModelOf(slots[..n + 1]) == if slots[n].elem.Some?
      then ModelOf(slots[..n])[slots[n].elem.value.key := slots[n].elem.value.val] else ModelOf(slots[..n])
  {
    assert slots[..n + 1][..n] == slots[..n];
  }

  /** The next element's key is not in the target yet, and there is room for it. */
  lemma NextIsNew(source: Arrays, n: nat, before: Arrays, target: Arrays)
    requires Transferred(source, n, before, target) && SharesNoKey(source, before) && UniqueKeys(source)
    requires n < |source.slots| && source.slots[n].elem.Some?
    requires Sum(before.slots, Holds) + Sum(source.slots, Holds) <= before.Capacity()
    ensures !KeyAmong(target.slots, source.slots[n].elem.value.key)
    ensures Sum(target.slots, Holds) < target.Capacity()
  {
    var k := source.slots[n].elem.value.key;
    ModelValue(source.slots, n);
    ModelKeys(target.slots, k);
    ModelKeys(source.slots[..n], k);
    assert forall y :: 0 <= y < n ==> KeyIn(source.slots[..n][y]) != Some(k);
    PrefixHolds(source.slots, n);
  }

  /** Placing the next element, or skipping an empty slot, advances the transfer. */
  lemma TransferStep(source: Arrays, n: nat, before: Arrays, target: Arrays, after: Arrays)
    requires Transferred(source, n, before, target) && n < |source.slots|
    requires after.Capacity() == target.Capacity()
    requires source.slots[n].elem.Some? ==>
      && ModelOf(after.slots) == ModelOf(target.slots)[source.slots[n].elem.value.key := source.slots[n].elem.value.val]
      && Sum(after.slots, Holds) == Sum(target.slots, Holds) + 1
    requires source.slots[n].elem == None ==> after == target
    ensures Transferred(source, n + 1, before, after)
  {
    PrefixGrows(source.slots, n);
  }

  /** unchecked_rehash's loop: every element of source, sentinel excluded, is placed in
      target. */
  method Transfer(source: TableArrays, target: TableArrays)
    requires Valid(source.View()) && Valid(target.View())
    requires source.slots != target.slots && source.over != target.over
    requires SharesNoKey(source.View(), target.View())
    requires Sum(target.View().slots, Holds) + Sum(source.View().slots, Holds) <= target.View().Capacity()
    modifies target.slots, target.over
    ensures Valid(target.View())
    ensures ModelOf(target.View().slots) == old(ModelOf(target.View().slots)) + ModelOf(source.View().slots)
    ensures Sum(target.View().slots, Holds) == old(Sum(target.View().slots, Holds)) + Sum(source.View().slots, Holds)
  {
    ghost var from, before := source.View(), target.View();
    var n := 0;
    while n < source.slots.Length
      invariant source.View() == from && Valid(target.View()) && Transferred(from, n, before, target.View())
    {
      ghost var now := target.View();
      assert Settled(from, n);
      if source.slots[n].meta != AVAILABLE && source.slots[n].meta != SENTINEL {
        NextIsNew(from, n, before, now);
        RoomBelowCapacity(now);
        var _ := target.EmplaceAt(source.slots[n].elem.value);
      }
      TransferStep(from, n, before, now, target.View());
      n := n + 1;
    }
    assert from.slots[..n] == from.slots;
  }

  // ----- the table -----

  /** New arrays holding one element. */
  method NewArraysWith(n: nat, e: Elem) returns (r: TableArrays)
    requires BitsFor(n) <= 64 && n > 0
    ensures fresh(r.slots) && fresh(r.over) && r.bits == BitsFor(n)
    ensures Valid(r.View()) && ModelOf(r.View().slots) == map[e.key := e.val] && Sum(r.View().slots, Holds) == 1
    ensures r.View().Capacity() == CapacityFor(n)
  {
    r := new TableArrays(n);
    RoomBelowCapacity(r.View());
    ModelKeys(r.View().slots, e.key);
    var _ := r.EmplaceAt(e);
  }

  /** The arrays that growth from this size asks for can be addressed. */
  predicate Growable(size: nat) {
    BitsFor(GrowthRequest(size)) <= 64
  }

  /** The lookup of `key` has come to step i at group g; the groups before lack it. */
  ghost predicate LookedUpTo(a: Arrays, key: Key, g: nat, i: nat) {
    && Tables.Valid(a) && i < |a.over| && g == PathAt(a, key, i)
    && forall j: nat :: j < i ==> NotInGroup(a, key, PathAt(a, key, j))
  }

  lemma NotInGroupsUpTo(a: Arrays, key: Key, g: nat, i: nat)
    requires LookedUpTo(a, key, g, i) && NotInGroup(a, key, g)
    ensures forall j: nat :: j <= i ==> NotInGroup(a, key, PathAt(a, key, j))
  {
  }

  lemma LookEnds(a: Arrays, key: Key, i: nat)
    requires Tables.Valid(a) && i < |a.over|
    requires forall j: nat :: j <= i ==> NotInGroup(a, key, PathAt(a, key, j))
    requires key.hash % 8 !in a.over[PathAt(a, key, i)] || i + 1 == |a.over|
    ensures key !in ModelOf(a.slots)
  {
    StopIsRight(a, key, i);
    ModelKeys(a.slots, key);
  }

  lemma LookStep(a: Arrays, key: Key, g: nat, i: nat)
    requires LookedUpTo(a, key, g, i) && NotInGroup(a, key, g)
    ensures key.hash % 8 !in a.over[g] || i + 1 == |a.over| ==> key !in ModelOf(a.slots)
    ensures PathAt(a, key, i + 1) == Masked(g + (i + 1), |a.over|)
    ensures i + 1 < |a.over| ==> LookedUpTo(a, key, PathAt(a, key, i + 1), i + 1)
  {
    NotInGroupsUpTo(a, key, g, i);
    if key.hash % 8 !in a.over[g] || i + 1 == |a.over| {
      LookEnds(a, key, i);
    }
  }

  /** Old elements, moved beside the new one, make the enlarged table. */
  lemma Grown(old_: Arrays, one: Arrays, both: Arrays, e: Elem)
    requires ModelOf(one.slots) == map[e.key := e.val] && e.key !in ModelOf(old_.slots)
    requires ModelOf(both.slots) == ModelOf(one.slots) + ModelOf(old_.slots)
    ensures ModelOf(both.slots) == ModelOf(old_.slots)[e.key := e.val]
  {
  }

  /** The capacity that rehash(n) asks for in a table of `size` elements. */
  function RehashTarget(size: nat, n: nat): nat {
    var m := if ForLoad(size) > n then ForLoad(size) else n;
    if m > 0 then CapacityFor(m) else 0
  }

  lemma RehashTargetFits(size: nat, n: nat)
    requires BitsFor(n) <= 64 && BitsFor(ForLoad(size)) <= 64
    ensures var m := RehashTarget(size, n);
      && m >= n && BitsFor(m) <= 64 && (m > 0 ==> CapacityFor(m) == m)
      && size <= InitialMaxLoad(if m == 0 then 0 else CapacityFor(m))
  {
    var m := if ForLoad(size) > n then ForLoad(size) else n;
    CapacityForIsStable(m);
    LoadCovers(size, RehashTarget(size, n));
  }

  /** Rehashing asks for the least number of groups with capacity for n that hold the
      elements present at the load factor. */
  lemma RehashIsLeast(size: nat, n: nat, b: nat)
    requires size > 0 || n > 0
    ensures LeastGroups(n, size, b) ==> RehashTarget(size, n) == CapacityOf(b)
    ensures LeastGroups(n, size, b) <==> b == BitsFor(if ForLoad(size) > n then ForLoad(size) else n)
  {
    LeastCapacity(if ForLoad(size) > n then ForLoad(size) else n, b);
    ForLoadIsLeast(size, CapacityOf(b));
    if b > 1 {
      ForLoadIsLeast(size, CapacityOf(b - 1));
    }
  }

  /** Arrays of the capacity that rehashing asks for have that number of groups. */
  lemma RehashedGroups(a: Arrays, size: nat, n: nat)
    requires a.WellFormed() && a.Capacity() == RehashTarget(size, n)
    ensures a.Capacity() == 0 <==> size == 0 && n == 0
    ensures a.Capacity() > 0 ==> LeastGroups(n, size, a.bits)
  {
    if size > 0 || n > 0 {
      var b := BitsFor(if ForLoad(size) > n then ForLoad(size) else n);
      RehashIsLeast(size, n, b);
      SameCapacitySameBits(a.bits, b);
    }
  }

  /** Asking for n / (7/8) slots is asking for n elements at the load factor. */
  lemma RoomForLoad(n: nat, size: nat, b: nat)
    requires LeastGroups(ForLoad(n), size, b)
    ensures LeastGroups(0, if size > n then size else n, b)
  {
    ForLoadIsLeast(n, CapacityOf(b));
    if b > 1 {
      ForLoadIsLeast(n, CapacityOf(b - 1));
    }
  }

  lemma SameCapacitySameBits(b: nat, c: nat)
    requires CapacityOf(b) == CapacityOf(c)
    ensures b == c
  {
    if b < c {
      Pow2Grows(b, c);
    } else if c < b {
      Pow2Grows(c, b);
    }
  }

  /** What growth from `size` makes of the number of groups. */
  ghost predicate GrownFrom(a: Arrays, size: nat, bits: nat) {
    && LeastGroups(0, size + size / 61 + 1, bits)
    && (!a.dummy && size == InitialMaxLoad(CapacityOf(a.bits)) ==> bits == a.bits + 1)
  }

  lemma GrowthIsLeast(a: Arrays, size: nat)
    requires a.WellFormed()
    ensures GrownFrom(a, size, BitsFor(GrowthRequest(size)))
  {
    LeastGrowth(size, BitsFor(GrowthRequest(size)));
    GrowthDoubles(a.bits);
  }

  lemma LoadCovers(size: nat, capacity: nat)
    requires capacity >= ForLoad(size)
    ensures InitialMaxLoad(capacity) >= size
  {
  }

  /** Under the reduced hash of a key there is an element; under another there is not
      the key's. */
  lemma HashTells(a: Arrays, x: nat, key: Key)
    requires Tables.Valid(a) && x < |a.slots|
    ensures a.slots[x].meta == ReducedHash(key.hash) ==> a.slots[x].elem.Some?
    ensures KeyIn(a.slots[x]) == Some(key) ==> a.slots[x].meta == ReducedHash(key.hash)
  {
    assert Settled(a, x);
  }

  class TableCore {
    var arrays: TableArrays
    var size: nat
    var ml: nat

    ghost predicate Valid()
      reads this, arrays.slots, arrays.over
    {
      && Tables.Valid(arrays.View())
      && size == Sum(arrays.View().slots, Holds) <= ml <= arrays.View().Capacity()
    }

    ghost function Model(): map<Key, int>
      reads this, arrays.slots
    {
      ModelOf(arrays.slots[..])
    }

    constructor (n: nat)
      requires BitsFor(n) <= 64
      ensures Valid() && Model() == map[] && size == 0
      ensures fresh(arrays.slots) && fresh(arrays.over)
      ensures arrays.View().Capacity() == if n == 0 then 0 else CapacityFor(n)
      ensures ml == InitialMaxLoad(arrays.View().Capacity())
      ensures n > 0 ==> arrays.bits == BitsFor(n) && Wiped(arrays.View(), arrays.View())
    {
      var fresh_ := new TableArrays(n);
      arrays := fresh_;
      size, ml := 0, InitialMaxLoad(if n == 0 then 0 else CapacityFor(n));
    }

    /** The slot of `key`, if it is in the table: probing stops at the first group that
        never overflowed for such a hash. */
    method Find(key: Key) returns (r: Option<nat>)
      requires Valid()
      ensures r.Some? <==> key in Model()
      ensures r.Some? ==> r.value < arrays.slots.Length && KeyIn(arrays.slots[r.value]) == Some(key)
      ensures r.Some? ==> arrays.slots[r.value].elem.value.val == Model()[key]
    {
      ghost var a := arrays.View();
      var home := Home(arrays.bits, key);
      var pb := new Prober(home);
      ModelKeys(a.slots, key);
      while true
        invariant fresh(pb) && LookedUpTo(a, key, pb.pos, pb.step)
        decreases |a.over| - pb.step
      {
        var found, x := FindInGroup(pb.pos, key);
        if found {
          ModelValue(a.slots, x);
          return Some(x);
        }
        LookStep(a, key, pb.pos, pb.step);
        if key.hash % 8 !in arrays.over[pb.pos] {
          return None;
        }
        var more := pb.Next(arrays.over.Length, home);
        if !more {
          return None;
        }
      }
    }

    /** Compares `key` with the elements of group g whose reduced hash matches. */
    method FindInGroup(g: nat, key: Key) returns (found: bool, x: nat)
      requires Valid() && g < arrays.over.Length
      ensures found ==> x < arrays.slots.Length && KeyIn(arrays.slots[x]) == Some(key)
      ensures !found ==> NotInGroup(arrays.View(), key, g)
    {
      ghost var a := arrays.View();
      x := 15 * g;
      while x < 15 * g + 15
        invariant 15 * g <= x <= 15 * g + 15
        invariant forall y :: 15 * g <= y < x ==> KeyIn(a.slots[y]) != Some(key)
      {
        HashTells(a, x, key);
        if arrays.slots[x].meta == ReducedHash(key.hash) {
          if arrays.slots[x].elem.value.key == key {
            found := true;
            return;
          }
        }
        x := x + 1;
      }
      found := false;
    }

    /** unprotected_emplace: inserts unless the key is present, growing when full. */
    method Emplace(e: Elem) returns (inserted: bool)
      requires Valid() && Growable(size)
      modifies this, arrays.slots, arrays.over
      ensures Valid()
      ensures inserted <==> e.key !in old(Model())
      ensures Model() == if inserted then old(Model())[e.key := e.val] else old(Model())
      ensures size == old(size) + if inserted then 1 else 0
      ensures arrays == old(arrays) || (fresh(arrays.slots) && fresh(arrays.over))
      ensures !inserted ==> arrays == old(arrays) && arrays.View() == old(arrays.View()) && ml == old(ml)
      ensures inserted && old(size < ml) ==>
        arrays == old(arrays) && ml == old(ml) && exists x :: Placed(old(arrays.View()), e, x, arrays.View())
      ensures inserted && !old(size < ml) ==>
        && fresh(arrays.slots) && GrownFrom(old(arrays.View()), old(size), arrays.bits)
        && !arrays.dummy && ml == InitialMaxLoad(arrays.View().Capacity())
    {
      var r := Find(e.key);
      if r.Some? {
        return false;
      }
      if size < ml {
        EmplaceInPlace(e);
      } else {
        EmplaceWithRehash(e);
      }
      inserted := true;
    }

    /** unchecked_emplace_at: there is room. */
    method EmplaceInPlace(e: Elem)
      requires Valid() && size < ml && e.key !in Model()
      modifies this`size, arrays.slots, arrays.over
      ensures Valid() && Model() == old(Model())[e.key := e.val] && size == old(size) + 1
      ensures exists x :: Placed(old(arrays.View()), e, x, arrays.View())
    {
      ModelKeys(arrays.View().slots, e.key);
      RoomBelowCapacity(arrays.View());
      var x := arrays.EmplaceAt(e);
      size := size + 1;
    }

    /** Larger arrays with the new element and all old ones. */
    method LargerArrays(e: Elem) returns (bigger: TableArrays)
      requires Valid() && Growable(size) && e.key !in Model()
      ensures Tables.Valid(bigger.View()) && ModelOf(bigger.View().slots) == Model()[e.key := e.val]
      ensures Sum(bigger.View().slots, Holds) == size + 1
      ensures fresh(bigger.slots) && fresh(bigger.over)
      ensures bigger.bits == BitsFor(GrowthRequest(size))
      ensures bigger.View().Capacity() == CapacityFor(GrowthRequest(size))
    {
      GrowthMakesRoom(size);
      bigger := NewArraysWith(GrowthRequest(size), e);
      ghost var one := bigger.View();
      Transfer(arrays, bigger);
      Grown(arrays.View(), one, bigger.View(), e);
    }

    method EmplaceWithRehash(e: Elem)
      requires Valid() && Growable(size) && e.key !in Model()
      modifies this
      ensures Valid()
      ensures Model() == old(Model())[e.key := e.val] && size == old(size) + 1
      ensures fresh(arrays.slots) && fresh(arrays.over) && !arrays.dummy
      ensures GrownFrom(old(arrays.View()), old(size), arrays.bits)
      ensures ml == InitialMaxLoad(arrays.View().Capacity())
    {
      GrowthMakesRoom(size);
      GrowthIsLeast(arrays.View(), size);
      var bigger := LargerArrays(e);
      arrays, ml := bigger, InitialMaxLoad(CapacityFor(GrowthRequest(size)));
      size := size + 1;
    }

    /** unchecked_rehash to arrays with room for n elements. */
    method UncheckedRehash(n: nat)
      requires Valid() && BitsFor(n) <= 64
      requires size <= InitialMaxLoad(if n == 0 then 0 else CapacityFor(n))
      modifies this
      ensures Valid() && Model() == old(Model()) && size == old(size)
      ensures fresh(arrays.slots) && fresh(arrays.over)
      ensures arrays.bits == BitsFor(n) && arrays.dummy == (n == 0)
      ensures ml == InitialMaxLoad(arrays.View().Capacity())
      ensures SameElements(old(arrays.View()), arrays.View())
    {
      ghost var before := arrays.View();
      var other := new TableArrays(n);
      Transfer(arrays, other);
      assert map[] + Model() == Model();
      arrays := other;
      ml := InitialMaxLoad(if n == 0 then 0 else CapacityFor(n));
      SameModelSameElements(before, arrays.View());
    }

    /** What the concurrent table's rehash_if_full does to the arrays. */
    method RehashForGrowth()
      requires Valid() && Growable(size)
      modifies this
      ensures Valid() && Model() == old(Model()) && size == old(size)
      ensures Regrown(old(arrays.View()), old(size), arrays.View())
      ensures GrownFrom(old(arrays.View()), old(size), arrays.bits)
      ensures size < ml == InitialMaxLoad(arrays.View().Capacity())
      ensures fresh(arrays.slots) && fresh(arrays.over)
    {
      GrowthMakesRoom(size);
      GrowthIsLeast(arrays.View(), size);
      UncheckedRehash(GrowthRequest(size));
    }

    /** Capacity for at least n elements, never too little for those present. */
    method Rehash(n: nat)
      requires Valid() && BitsFor(n) <= 64 && BitsFor(ForLoad(size)) <= 64
      modifies this
      ensures Valid() && Model() == old(Model()) && size == old(size)
      ensures arrays.View().Capacity() == RehashTarget(old(size), n) >= n
      ensures arrays.View().Capacity() == 0 <==> old(size) == 0 && n == 0
      ensures arrays.View().Capacity() > 0 ==> LeastGroups(n, old(size), arrays.bits)
      ensures if old(arrays.View()).Capacity() == RehashTarget(old(size), n)
        then arrays == old(arrays) && arrays.View() == old(arrays.View()) && ml == old(ml)
        else fresh(arrays.slots) && fresh(arrays.over) && ml == InitialMaxLoad(arrays.View().Capacity())
    {
      var m := RehashTarget(size, n);
      RehashTargetFits(size, n);
      var c := arrays.Capacity();
      if m != c {
        UncheckedRehash(m);
      }
      RehashedGroups(arrays.View(), size, n);
    }

    /** Room for n elements at the maximum load factor. The load limit itself admits n
        elements unless the capacity is already the one asked for, so that the arrays
        are kept, and erasures have lowered the limit below n. */
    method Reserve(n: nat)
      requires Valid() && BitsFor(ForLoad(n)) <= 64 && BitsFor(ForLoad(size)) <= 64
      modifies this
      ensures Valid() && Model() == old(Model()) && size == old(size)
      ensures InitialMaxLoad(arrays.View().Capacity()) >= n
      ensures arrays.View().Capacity() == 0 <==> old(size) == 0 && n == 0
      ensures arrays.View().Capacity() > 0 ==> LeastGroups(0, if old(size) > n then old(size) else n, arrays.bits)
      ensures ml < n <==> old(arrays.View()).Capacity() == RehashTarget(old(size), ForLoad(n)) && old(ml) < n
      ensures ml < n ==> arrays == old(arrays) && ml == old(ml)
    {
      LoadCovers(n, RehashTarget(size, ForLoad(n)));
      CapacityForIsStable(ForLoad(n));
      Rehash(ForLoad(n));
      if arrays.View().Capacity() > 0 {
        RoomForLoad(n, size, arrays.bits);
      }
    }

    /** recover_slot: resets the slot, and lowers the load limit if the element may
        have caused overflow. */
    method EraseAt(x: nat)
      requires Valid() && x < arrays.slots.Length && arrays.slots[x].elem.Some?
      modifies this`size, this`ml, arrays.slots
      ensures Valid()
      ensures Model() == old(Model()) - {old(arrays.slots[x].elem.value.key)}
      ensures size == old(size) - 1
      ensures arrays.View().over == old(arrays.View().over)
      ensures arrays.View().slots == old(arrays.View().slots)[x := Slot(AVAILABLE, None)]
      ensures ml == old(ml) - if old(arrays.slots[x].elem.value.key.hash) % 8 in arrays.over[x / 15] then 1 else 0
    {
      ghost var a := arrays.View();
      assert Settled(a, x);
      ResetKeepsValid(a, x);
      HoldsNonNegative(a.slots[x := Slot(AVAILABLE, None)]);
      if arrays.slots[x].meta % 8 in arrays.over[x / 15] {
        ml := ml - 1;
      }
      arrays.SetSlot(x, Slot(AVAILABLE, None));
      size := size - 1;
    }

    method Erase(key: Key) returns (n: nat)
      requires Valid()
      modifies this`size, this`ml, arrays.slots
      ensures Valid() && Model() == old(Model()) - {key}
      ensures n == if key in old(Model()) then 1 else 0
      ensures size == old(size) - n
    {
      var r := Find(key);
      if r.Some? {
        EraseAt(r.value);
        n := 1;
      } else {
        n := 0;
      }
    }

    /** Wipes all metadata, overflow bytes included, and restores the load limit. */
    method Clear()
      requires Valid()
      modifies this`size, this`ml, arrays.slots, arrays.over
      ensures Valid() && Model() == map[] && size == 0
      ensures ml == InitialMaxLoad(arrays.View().Capacity()) || arrays.dummy
      ensures if arrays.dummy then arrays.View() == old(arrays.View()) else Wiped(old(arrays.View()), arrays.View())
    {
      ghost var before := arrays.View();
      if arrays.dummy {
        HoldsNonNegative(arrays.View().slots);
        ModelSize(arrays.View().slots);
      } else {
        forall x | 0 <= x < arrays.slots.Length {
          arrays.slots[x] := Slot(if x + 1 == arrays.slots.Length then SENTINEL else AVAILABLE, None);
        }
        forall g | 0 <= g < arrays.over.Length {
          arrays.over[g] := {};
        }
        WipedIsEmpty(before, arrays.View());
        size, ml := 0, InitialMaxLoad(arrays.slots.Length - 1);
      }
    }
  }

  /** size() is the number of keys. */
  lemma SizeIsKeyCount(t: TableCore)
    requires t.Valid()
    ensures t.size == |t.Model()|
  {
    ModelSize(t.arrays.View().slots);
  }
}
