/** Bulk visit: keys are taken in chunks of 16 to 31, their hashes, home groups and first
    masks computed ahead; it visits what one-by-one visits would, in the same order. */
module BulkVisit {
  import opened Tables
  import opened TableModel
  import opened TableCore

  const BULK_VISIT_SIZE: nat := 16
  const BUFFER: nat := 31 // 2 * BULK_VISIT_SIZE - 1

  /** The slot that a visit of `key` calls back on. */
  ghost function SlotOf(a: Arrays, key: Key): (r: Option<nat>)
    ensures r.Some? ==> r.value < |a.slots| && KeyIn(a.slots[r.value]) == Some(key)
    ensures r == None ==> !KeyAmong(a.slots, key)
  {
    if KeyAmong(a.slots, key) then
      var x :| 0 <= x < |a.slots| && KeyIn(a.slots[x]) == Some(key);
      Some(x)
    else None
  }

  /** The slots visited when the keys are visited one by one. */
  ghost function Visits(a: Arrays, keys: seq<Key>): seq<nat> {
    if keys == [] then [] else
      var r := SlotOf(a, keys[|keys| - 1]);
      Visits(a, keys[..|keys| - 1]) + if r.Some? then [r.value] else []
  }

  /** What key n adds to the visits of the keys before it. */
  lemma VisitsNext(a: Arrays, keys: seq<Key>, n: nat)
    requires n < |keys|
    ensures Visits(a, keys[..n + 1]) ==
      Visits(a, keys[..n]) + var r := SlotOf(a, keys[n]); if r.Some? then [r.value] else []
  {
    assert keys[..n + 1][..n] == keys[..n] && keys[..n + 1][n] == keys[n];
  }

  lemma {:induction false} VisitsConcat(a: Arrays, keys: seq<Key>, more: seq<Key>)
    ensures Visits(a, keys + more) == Visits(a, keys) + Visits(a, more)
  {
    if more == [] {
      assert keys + more == keys;
    } else {
      var last := |more| - 1;
      assert (keys + more)[..|keys| + last] == keys + more[..last];
      VisitsConcat(a, keys, more[..last]);
    }
  }

  lemma SlotIsUnique(a: Arrays, key: Key, x: nat)
    requires UniqueKeys(a) && x < |a.slots| && KeyIn(a.slots[x]) == Some(key)
    ensures SlotOf(a, key) == Some(x)
  {
  }

  /** The slots of group g whose metadata byte is the reduced hash. */
  ghost function MatchSet(a: Arrays, g: nat, hash: Hash): set<nat> {
    set n: nat | n < 15 && Matches(a, g, n, hash)
  }

  ghost predicate Matches(a: Arrays, g: nat, n: nat, hash: Hash) {
    15 * g + n < |a.slots| && a.slots[15 * g + n].meta == ReducedHash(hash)
  }

  method Match(t: TableCore, g: nat, hash: Hash) returns (mask: set<nat>)
    requires t.Valid() && g < t.arrays.over.Length
    ensures mask == MatchSet(t.arrays.View(), g, hash)
  {
    mask := {};
    var n := 0;
    while n < 15
      invariant n <= 15
      invariant forall m: nat :: m in mask <==> m < n && Matches(t.arrays.View(), g, m, hash)
    {
      if t.arrays.slots[15 * g + n].meta == ReducedHash(hash) {
        mask := mask + {n};
      }
      n := n + 1;
    }
  }

  /** Tries the masked slots of group g, lowest first. */
  method ScanMask(t: TableCore, g: nat, key: Key, mask: set<nat>) returns (r: Option<nat>)
    requires t.Valid() && g < t.arrays.over.Length && mask == MatchSet(t.arrays.View(), g, key.hash)
    ensures r.Some? ==> r.value < t.arrays.slots.Length && KeyIn(t.arrays.slots[r.value]) == Some(key)
    ensures r == None ==> NotInGroup(t.arrays.View(), key, g)
  {
    ghost var a := t.arrays.View();
    var n := 0;
    while n < 15
      invariant n <= 15
      invariant forall y :: 15 * g <= y < 15 * g + n ==> KeyIn(a.slots[y]) != Some(key)
    {
      assert Settled(a, 15 * g + n);
      assert n in mask <==> Matches(a, g, n, key.hash);
      if n in mask && t.arrays.slots[15 * g + n].meta != AVAILABLE {
        if t.arrays.slots[15 * g + n].elem.value.key == key {
          return Some(15 * g + n);
        }
      }
      n := n + 1;
    }
    r := None;
  }

  /** One key's turn, from its precomputed home group and mask. */
  method VisitFrom(t: TableCore, key: Key, home: nat, first: set<nat>) returns (r: Option<nat>)
    requires t.Valid() && home == Home(t.arrays.bits, key)
    requires home < t.arrays.over.Length && first == MatchSet(t.arrays.View(), home, key.hash)
    ensures r == SlotOf(t.arrays.View(), key)
  {
    ghost var a := t.arrays.View();
    var pb := new Prober(home);
    var mask := first;
    ModelKeys(a.slots, key);
    while true
      invariant fresh(pb) && LookedUpTo(a, key, pb.pos, pb.step)
      invariant mask == MatchSet(a, pb.pos, key.hash)
      decreases |a.over| - pb.step
    {
      r := ScanMask(t, pb.pos, key, mask);
      if r.Some? {
        SlotIsUnique(a, key, r.value);
        return;
      }
      LookStep(a, key, pb.pos, pb.step);
      if key.hash % 8 !in t.arrays.over[pb.pos] {
        return None;
      }
      var more := pb.Next(t.arrays.over.Length, home);
      if !more {
        return None;
      }
      mask := Match(t, pb.pos, key.hash);
    }
  }

  /** One visit on its own. */
  method VisitOne(t: TableCore, key: Key) returns (r: Option<nat>)
    requires t.Valid()
    ensures r == SlotOf(t.arrays.View(), key)
  {
    var home := Home(t.arrays.bits, key);
    var mask := Match(t, home, key.hash);
    r := VisitFrom(t, key, home, mask);
  }

  /** The keys visited one by one. */
  method VisitEach(t: TableCore, keys: seq<Key>) returns (visited: seq<nat>, res: nat)
    requires t.Valid()
    ensures visited == Visits(t.arrays.View(), keys) && res == |visited|
  {
    ghost var a := t.arrays.View();
    visited, res := [], 0;
    for i := 0 to |keys|
      invariant visited == Visits(a, keys[..i]) && res == |visited|
    {
      VisitsNext(a, keys, i);
      var r := VisitOne(t, keys[i]);
      if r.Some? {
        visited, res := visited + [r.value], res + 1;
      }
    }
    assert keys[..|keys|] == keys;
  }

  /** The precomputed data for the key of the chunk that buffer entry i stands for. */
  ghost predicate Prepared(a: Arrays, key: Key, home: nat, mask: set<nat>) {
    a.WellFormed() && home == Home(a.bits, key) && mask == MatchSet(a, home, key.hash)
  }

  /** One chunk of at most 31 keys. The buffers run backwards: entry i belongs to key
      m - 1 - i. */
  method VisitChunk(t: TableCore, keys: seq<Key>) returns (visited: seq<nat>, res: nat)
    requires t.Valid() && |keys| <= BUFFER
    ensures visited == Visits(t.arrays.View(), keys) && res == |visited|
  {
    var hashes := new Hash[BUFFER](_ => 0);
    var positions := new nat[BUFFER](_ => 0);
    var masks := new set<nat>[BUFFER](_ => {});
    PrepareHomes(t.arrays.bits, keys, hashes, positions);
    PrepareMasks(t, keys, hashes, positions, masks);
    visited, res := VisitPrepared(t, keys, positions, masks);
  }

  /** The first preparing loop: hashes and home groups. */
  method PrepareHomes(bits: nat, keys: seq<Key>, hashes: array<Hash>, positions: array<nat>)
    requires |keys| <= BUFFER && bits <= 64
    requires hashes.Length == positions.Length == BUFFER
    modifies hashes, positions
    ensures forall k :: 0 <= k < |keys| ==>
      hashes[k] == keys[|keys| - 1 - k].hash && positions[k] == Home(bits, keys[|keys| - 1 - k])
  {
    var m := |keys|;
    var i := m;
    while i > 0
      invariant 0 <= i <= m
      invariant forall k :: i <= k < m ==>
        hashes[k] == keys[m - 1 - k].hash && positions[k] == Home(bits, keys[m - 1 - k])
    {
      i := i - 1;
      hashes[i] := keys[m - 1 - i].hash;
      positions[i] := Home(bits, keys[m - 1 - i]);
    }
  }

  /** The second: the masks of the home groups. */
  method PrepareMasks(t: TableCore, keys: seq<Key>, hashes: array<Hash>, positions: array<nat>, masks: array<set<nat>>)
    requires t.Valid() && |keys| <= BUFFER
    requires hashes.Length == positions.Length == masks.Length == BUFFER && masks != t.arrays.over
    requires forall k :: 0 <= k < |keys| ==>
      hashes[k] == keys[|keys| - 1 - k].hash && positions[k] == Home(t.arrays.bits, keys[|keys| - 1 - k])
    modifies masks
    ensures forall k :: 0 <= k < |keys| ==>
      Prepared(t.arrays.View(), keys[|keys| - 1 - k], positions[k], masks[k])
  {
    ghost var a := t.arrays.View();
    var m := |keys|;
    var i := m;
    while i > 0
      invariant 0 <= i <= m && t.arrays.View() == a
      invariant forall k :: i <= k < m ==> Prepared(a, keys[m - 1 - k], positions[k], masks[k])
    {
      i := i - 1;
      var mask := Match(t, positions[i], hashes[i]);
      masks[i] := mask;
    }
  }

  /** The visiting loop. */
  method VisitPrepared(t: TableCore, keys: seq<Key>, positions: array<nat>, masks: array<set<nat>>)
    returns (visited: seq<nat>, res: nat)
    requires t.Valid() && |keys| <= BUFFER && positions.Length == masks.Length == BUFFER
    requires forall k :: 0 <= k < |keys| ==>
      Prepared(t.arrays.View(), keys[|keys| - 1 - k], positions[k], masks[k])
    ensures visited == Visits(t.arrays.View(), keys) && res == |visited|
  {
    ghost var a := t.arrays.View();
    var m := |keys|;
    visited, res := [], 0;
    var i := m;
    while i > 0
      invariant 0 <= i <= m
      invariant visited == Visits(a, keys[..m - i]) && res == |visited|
    {
      i := i - 1;
      VisitsNext(a, keys, m - 1 - i);
      var r := VisitFrom(t, keys[m - 1 - i], positions[i], masks[i]);
      if r.Some? {
        visited, res := visited + [r.value], res + 1;
      }
    }
    assert keys[..m] == keys;
  }

  /** Bulk visit visits exactly the slots, in exactly the order, of one-by-one visits,
      and returns their number. */
  method Visit(t: TableCore, keys: seq<Key>) returns (visited: seq<nat>, res: nat)
    requires t.Valid()
    ensures visited == Visits(t.arrays.View(), keys) && res == |visited|
  {
    ghost var a := t.arrays.View();
    visited, res := [], 0;
    var first, n := 0, |keys|;
    while n > 0
      invariant 0 <= first && 0 <= n && first + n == |keys| && visited == Visits(a, keys[..first]) && res == |visited|
    {
      var m := if n < 2 * BULK_VISIT_SIZE then n else BULK_VISIT_SIZE;
      var more, count := VisitChunk(t, keys[first..first + m]);
      VisitsConcat(a, keys[..first], keys[first..first + m]);
      assert keys[..first] + keys[first..first + m] == keys[..first + m];
      visited, res := visited + more, res + count;
      n, first := n - m, first + m;
    }
    assert keys[..first] == keys;
  }

  /** The keys, in order and with repetitions, that the table has. */
  ghost function Present(a: Arrays, keys: seq<Key>): seq<Key> {
    if keys == [] then [] else
      Present(a, keys[..|keys| - 1]) + if keys[|keys| - 1] in ModelOf(a.slots) then [keys[|keys| - 1]] else []
  }

  /** The i-th visit is to the slot of the i-th of the keys that the table has. */
  lemma {:induction false} VisitedKeys(a: Arrays, keys: seq<Key>)
    requires UniqueKeys(a)
    ensures |Visits(a, keys)| == |Present(a, keys)|
    ensures forall i :: 0 <= i < |Visits(a, keys)| ==>
      Visits(a, keys)[i] < |a.slots| && KeyIn(a.slots[Visits(a, keys)[i]]) == Some(Present(a, keys)[i])
  {
    if keys != [] {
      VisitedKeys(a, keys[..|keys| - 1]);
      ModelKeys(a.slots, keys[|keys| - 1]);
    }
  }
}
