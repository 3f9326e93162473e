/** merge: moves every element whose key the destination lacks, erasing from the source
    during its own traversal while the destination may rehash. */
module TableMerge {
  import opened Tables
  import opened TableModel
  import opened TableCore

  /** The two tables are one, or have nothing in common. */
  ghost predicate Apart(x: TableCore, y: TableCore)
    reads x, y
  {
    x == y || (x.arrays.slots != y.arrays.slots && x.arrays.over != y.arrays.over)
  }

  ghost predicate GrowableUpTo(size: nat) {
    forall n: nat :: n <= size ==> Growable(n)
  }

  /** What is left of the source once the elements `done` have had their turn. */
  ghost function Remainder(source: map<Key, int>, done: map<Key, int>, own: map<Key, int>): map<Key, int> {
    source - (done.Keys - own.Keys)
  }

  lemma MovedStep(source: map<Key, int>, done: map<Key, int>, own: map<Key, int>, e: Elem)
    requires e.key !in done
    ensures e.key !in own ==>
      && (done + own)[e.key := e.val] == done[e.key := e.val] + own
      && Remainder(source, done, own) - {e.key} == Remainder(source, done[e.key := e.val], own)
    ensures e.key in own ==>
      && done + own == done[e.key := e.val] + own
      && Remainder(source, done, own) == Remainder(source, done[e.key := e.val], own)
  {
  }

  lemma UnionSize(s: map<Key, int>, d: map<Key, int>)
    ensures |s + d| == |d| + |s.Keys - d.Keys|
  {
    assert (s + d).Keys == d.Keys + (s.Keys - d.Keys);
  }

  /** The traversal has done the first n slots of the source. */
  ghost predicate Merging(from: Arrays, now: Arrays, n: nat, target: map<Key, int>, own: map<Key, int>) {
    && Valid(from) && Valid(now) && n <= |from.slots| == |now.slots|
    && now.slots[n..] == from.slots[n..]
    && target == ModelOf(from.slots[..n]) + own
    && ModelOf(now.slots) == Remainder(ModelOf(from.slots), ModelOf(from.slots[..n]), own)
  }

  lemma MergeBegins(from: Arrays, own: map<Key, int>)
    requires Valid(from)
    ensures Merging(from, from, 0, own, own)
  {
    assert ModelOf(from.slots[..0]) == map[];
  }

  lemma NextKeyNotDone(slots: seq<Slot>, n: nat)
    requires DistinctKeys(slots) && n < |slots| && slots[n].elem.Some?
    ensures slots[n].elem.value.key !in ModelOf(slots[..n])
  {
    ModelKeys(slots[..n], slots[n].elem.value.key);
    assert forall y :: 0 <= y < n ==> KeyIn(slots[..n][y]) != Some(slots[n].elem.value.key);
  }

  lemma SkipEmpty(from: Arrays, now: Arrays, n: nat, target: map<Key, int>, own: map<Key, int>)
    requires Merging(from, now, n, target, own) && n < |from.slots| && from.slots[n].elem == None
    ensures Merging(from, now, n + 1, target, own)
  {
    PrefixGrows(from.slots, n);
    assert now.slots[n + 1..] == now.slots[n..][1..] && from.slots[n + 1..] == from.slots[n..][1..];
  }

  lemma KeepPresent(from: Arrays, now: Arrays, n: nat, target: map<Key, int>, own: map<Key, int>)
    requires Merging(from, now, n, target, own) && n < |from.slots| && from.slots[n].elem.Some?
    requires from.slots[n].elem.value.key in own
    ensures Merging(from, now, n + 1, target, own)
  {
    PrefixGrows(from.slots, n);
    NextKeyNotDone(from.slots, n);
    MovedStep(ModelOf(from.slots), ModelOf(from.slots[..n]), own, from.slots[n].elem.value);
    assert now.slots[n + 1..] == now.slots[n..][1..] && from.slots[n + 1..] == from.slots[n..][1..];
  }

  lemma MoveNew(from: Arrays, now: Arrays, then_: Arrays, n: nat, target: map<Key, int>, own: map<Key, int>)
    requires Merging(from, now, n, target, own) && n < |from.slots| && from.slots[n].elem.Some?
    requires from.slots[n].elem.value.key !in own && Valid(then_)
    requires then_.slots == now.slots[n := Slot(AVAILABLE, None)]
    requires ModelOf(then_.slots) == ModelOf(now.slots) - {from.slots[n].elem.value.key}
    ensures Merging(from, then_, n + 1, target[from.slots[n].elem.value.key := from.slots[n].elem.value.val], own)
  {
    PrefixGrows(from.slots, n);
    NextKeyNotDone(from.slots, n);
    MovedStep(ModelOf(from.slots), ModelOf(from.slots[..n]), own, from.slots[n].elem.value);
    assert then_.slots[n + 1..] == now.slots[n..][1..] && from.slots[n + 1..] == from.slots[n..][1..];
  }

  lemma MergeDone(from: Arrays, now: Arrays, target: map<Key, int>, own: map<Key, int>)
    requires Merging(from, now, |from.slots|, target, own)
    ensures target == ModelOf(from.slots) + own
    ensures ModelOf(now.slots) == map k | k in ModelOf(from.slots) && k in own :: ModelOf(from.slots)[k]
  {
    assert from.slots[..|from.slots|] == from.slots;
  }

  /** Emplacing what a slot of the table itself holds does nothing. */
  method EmplacePresent(t: TableCore, n: nat) returns (inserted: bool)
    requires t.Valid() && Growable(t.size) && n < t.arrays.slots.Length && t.arrays.slots[n].elem.Some?
    modifies t, t.arrays.slots, t.arrays.over
    ensures !inserted && t.Valid() && t.arrays == old(t.arrays) && t.size == old(t.size)
    ensures t.arrays.View() == old(t.arrays.View())
  {
    ModelValue(t.arrays.View().slots, n);
    inserted := t.Emplace(t.arrays.slots[n].elem.value);
  }

  /** Merging a table into itself finds every key present and changes nothing. */
  method MergeSelf(t: TableCore) returns (moved: nat)
    requires t.Valid() && Growable(t.size)
    modifies t, t.arrays.slots, t.arrays.over
    ensures moved == 0 && t.Valid() && t.arrays.View() == old(t.arrays.View()) && t.size == old(t.size)
  {
    var s, n, arrays := t.size, 0, t.arrays;
    while n < arrays.slots.Length
      invariant t.arrays == arrays == old(t.arrays) && t.Valid()
      invariant arrays.View() == old(t.arrays.View()) && t.size == old(t.size)
    {
      assert Settled(arrays.View(), n);
      if arrays.slots[n].meta != AVAILABLE && arrays.slots[n].meta != SENTINEL {
        var inserted := EmplacePresent(t, n);
        assert !inserted; // so the slot's erasure is rolled back each time
      }
      n := n + 1;
    }
    moved := t.size - s;
  }

  /** One step of the traversal: try to move the element of slot n. */
  method MergeSlot(dst: TableCore, src: TableCore, n: nat, ghost from: Arrays, ghost own: map<Key, int>)
    requires dst != src && Apart(dst, src) && dst.Valid() && src.Valid() && Growable(dst.size)
    requires Merging(from, src.arrays.View(), n, dst.Model(), own) && n < |from.slots|
    modifies dst, dst.arrays.slots, dst.arrays.over, src`size, src`ml, src.arrays.slots
    ensures dst.Valid() && src.Valid() && src.arrays == old(src.arrays) && Apart(dst, src)
    ensures dst.arrays == old(dst.arrays) || (fresh(dst.arrays.slots) && fresh(dst.arrays.over))
    ensures dst.size + src.size == old(dst.size) + old(src.size)
    ensures Merging(from, src.arrays.View(), n + 1, dst.Model(), own)
  {
    ghost var now, target := src.arrays.View(), dst.Model();
    assert Settled(from, n);
    assert now.slots[n] == now.slots[n..][0] == from.slots[n..][0] == from.slots[n];
    if src.arrays.slots[n].meta != AVAILABLE && src.arrays.slots[n].meta != SENTINEL {
      MoveSlot(dst, src, n, from, own);
    } else {
      SkipEmpty(from, now, n, target, own);
    }
  }

  method MoveSlot(dst: TableCore, src: TableCore, n: nat, ghost from: Arrays, ghost own: map<Key, int>)
    requires dst != src && Apart(dst, src) && dst.Valid() && src.Valid() && Growable(dst.size)
    requires Merging(from, src.arrays.View(), n, dst.Model(), own) && n < |from.slots|
    requires src.arrays.slots[n] == from.slots[n] && from.slots[n].elem.Some?
    modifies dst, dst.arrays.slots, dst.arrays.over, src`size, src`ml, src.arrays.slots
    ensures dst.Valid() && src.Valid() && src.arrays == old(src.arrays) && Apart(dst, src)
    ensures dst.arrays == old(dst.arrays) || (fresh(dst.arrays.slots) && fresh(dst.arrays.over))
    ensures dst.size + src.size == old(dst.size) + old(src.size)
    ensures Merging(from, src.arrays.View(), n + 1, dst.Model(), own)
  {
    ghost var now, target := src.arrays.View(), dst.Model();
    NextKeyNotDone(from.slots, n);
    var inserted := TryMove(dst, src, n);
    if inserted {
      MoveNew(from, now, src.arrays.View(), n, target, own);
    } else {
      KeepPresent(from, now, n, target, own);
    }
  }

  /** Emplaces a copy, and erases the original if that was new. */
  method TryMove(dst: TableCore, src: TableCore, n: nat) returns (inserted: bool)
    requires dst != src && Apart(dst, src) && dst.Valid() && src.Valid() && Growable(dst.size)
    requires n < src.arrays.slots.Length && src.arrays.slots[n].elem.Some?
    modifies dst, dst.arrays.slots, dst.arrays.over, src`size, src`ml, src.arrays.slots
    ensures dst.Valid() && src.Valid() && src.arrays == old(src.arrays) && Apart(dst, src)
    ensures dst.arrays == old(dst.arrays) || (fresh(dst.arrays.slots) && fresh(dst.arrays.over))
    ensures dst.size + src.size == old(dst.size) + old(src.size)
    ensures var e := old(src.arrays.slots[n].elem.value);
      && (inserted <==> e.key !in old(dst.Model()))
      && dst.Model() == (if inserted then old(dst.Model())[e.key := e.val] else old(dst.Model()))
      && src.Model() == (if inserted then old(src.Model()) - {e.key} else old(src.Model()))
    ensures src.arrays.View().slots ==
      if inserted then old(src.arrays.View().slots)[n := Slot(AVAILABLE, None)] else old(src.arrays.View().slots)
    ensures src.arrays.View().over == old(src.arrays.View().over)
  {
    inserted := EmplaceCopy(dst, src, n);
    if inserted {
      EraseOriginal(dst, src, n);
    }
  }

  method EraseOriginal(dst: TableCore, src: TableCore, n: nat)
    requires dst != src && Apart(dst, src) && dst.Valid() && src.Valid()
    requires n < src.arrays.slots.Length && src.arrays.slots[n].elem.Some?
    modifies src`size, src`ml, src.arrays.slots
    ensures dst.Valid() && src.Valid()
    ensures dst.Model() == old(dst.Model()) && src.size == old(src.size) - 1
    ensures src.Model() == old(src.Model()) - {old(src.arrays.slots[n].elem.value.key)}
    ensures src.arrays.View().slots == old(src.arrays.View().slots)[n := Slot(AVAILABLE, None)]
    ensures src.arrays.View().over == old(src.arrays.View().over)
  {
    src.EraseAt(n);
  }

  method EmplaceCopy(dst: TableCore, src: TableCore, n: nat) returns (inserted: bool)
    requires dst != src && Apart(dst, src) && dst.Valid() && src.Valid() && Growable(dst.size)
    requires n < src.arrays.slots.Length && src.arrays.slots[n].elem.Some?
    modifies dst, dst.arrays.slots, dst.arrays.over
    ensures dst.Valid() && src.Valid() && src.arrays.View() == old(src.arrays.View())
    ensures dst.arrays == old(dst.arrays) || (fresh(dst.arrays.slots) && fresh(dst.arrays.over))
    ensures var e := old(src.arrays.slots[n].elem.value);
      && (inserted <==> e.key !in old(dst.Model()))
      && dst.Model() == (if inserted then old(dst.Model())[e.key := e.val] else old(dst.Model()))
    ensures dst.size == old(dst.size) + if inserted then 1 else 0
  {
    inserted := dst.Emplace(src.arrays.slots[n].elem.value);
  }

  /** The destination becomes the union, its own entries winning; the source keeps
      exactly the entries whose keys the destination had; the number moved is
      returned. */
  method Merge(dst: TableCore, src: TableCore) returns (moved: nat)
    requires dst != src && Apart(dst, src) && dst.Valid() && src.Valid()
    requires GrowableUpTo(dst.size + src.size)
    modifies dst, dst.arrays.slots, dst.arrays.over, src`size, src`ml, src.arrays.slots
    ensures dst.Valid() && src.Valid()
    ensures dst.Model() == old(src.Model()) + old(dst.Model())
    ensures src.Model() == map k | k in old(src.Model()) && k in old(dst.Model()) :: old(src.Model())[k]
    ensures moved == |old(src.Model()).Keys - old(dst.Model()).Keys|
    ensures dst.size + src.size == old(dst.size) + old(src.size)
  {
    ghost var from, own := src.arrays.View(), dst.Model();
    var s := dst.size;
    SizeIsKeyCount(dst);
    UnionSize(src.Model(), dst.Model());
    MergeAll(dst, src, from, own);
    MergeDone(from, src.arrays.View(), dst.Model(), own);
    SizeIsKeyCount(dst);
    moved := dst.size - s;
  }

  method MergeAll(dst: TableCore, src: TableCore, ghost from: Arrays, ghost own: map<Key, int>)
    requires dst != src && Apart(dst, src) && dst.Valid() && src.Valid()
    requires GrowableUpTo(dst.size + src.size)
    requires from == src.arrays.View() && own == dst.Model()
    modifies dst, dst.arrays.slots, dst.arrays.over, src`size, src`ml, src.arrays.slots
    ensures dst.Valid() && src.Valid() && src.arrays == old(src.arrays)
    ensures dst.size + src.size == old(dst.size) + old(src.size)
    ensures Merging(from, src.arrays.View(), |from.slots|, dst.Model(), own)
  {
    var n, arrays := 0, src.arrays;
    ghost var total := dst.size + src.size;
    MergeBegins(from, own);
    var last := arrays.slots.Length;
    while n < last
      invariant 0 <= n <= last == arrays.slots.Length == |from.slots|
      invariant src.arrays == arrays && Apart(dst, src)
      invariant dst.Valid() && src.Valid() && dst.size + src.size == total
      invariant dst.arrays == old(dst.arrays) || (fresh(dst.arrays.slots) && fresh(dst.arrays.over))
      invariant Merging(from, arrays.View(), n, dst.Model(), own)
    {
      assert Growable(dst.size);
      MergeSlot(dst, src, n, from, own);
      n := n + 1;
    }
  }
}
