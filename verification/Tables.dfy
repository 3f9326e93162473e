/** The open-addressing table as a value: groups of 15 slots, an overflow byte per
    group, and the invariant that lets a lookup stop early. */
module Tables {
  import opened Probing

  datatype Option<+T> = None | Some(value: T)

  /** A hash value as the table sees it, after mixing. */
  type Hash = h: nat | h < Pow2(64) witness 0

  /** A key carries its hash, so equal keys have equal hashes. */
  datatype Key = Key(id: int, hash: Hash)

  datatype Elem = Elem(key: Key, val: int)

  /** One slot: its metadata byte and its (possibly raw) element storage. */
  datatype Slot = Slot(meta: nat, elem: Option<Elem>)

  const AVAILABLE: nat := 0
  const SENTINEL: nat := 1

  /** `bits` is the logarithm of the number of groups; slot n of group g is
      `slots[15 * g + n]`; `over[g]` holds the set bits of the overflow byte.
      `dummy` marks the shared two groups of a table without storage. */
  datatype Arrays = Arrays(bits: nat, dummy: bool, slots: seq<Slot>, over: seq<set<nat>>) {

    ghost predicate WellFormed() {
      && 1 <= bits <= 64
      && |over| == Pow2(bits)
      && |slots| == 15 * |over|
      && (dummy ==> bits == 1)
    }

    /** The slot that holds the sentinel; in the dummy groups there are two. */
    predicate SentinelAt(x: nat) {
      x + 1 == |slots| || (dummy && x % 15 == 14)
    }

    function Sentinels(): nat { if dummy then 2 else 1 }

    function Capacity(): int { if dummy then 0 else |slots| - 1 }
  }

  /** h shifted right by n bits. */
  function ShiftRight(h: nat, n: nat): nat {
    if n == 0 then h else ShiftRight(h / 2, n - 1)
  }

  lemma {:induction false} ShiftRightBounds(h: nat, bits: nat, n: nat)
    requires h < Pow2(bits + n)
    ensures ShiftRight(h, n) < Pow2(bits)
  {
    if n > 0 {
      ShiftRightBounds(h / 2, bits, n - 1);
    }
  }

  lemma {:induction false} ShiftRightIsQuotient(h: nat, n: nat)
    ensures ShiftRight(h, n) * Pow2(n) <= h < (ShiftRight(h, n) + 1) * Pow2(n)
  {
    if n > 0 {
      ShiftRightIsQuotient(h / 2, n - 1);
      HalvedBounds(h, ShiftRight(h, n), Pow2(n - 1));
    }
  }

  lemma HalvedBounds(h: nat, q: nat, p: nat)
    requires q * p <= h / 2 < (q + 1) * p
    ensures q * (2 * p) <= h < (q + 1) * (2 * p)
  {
    TwiceProduct(q, p);
    TwiceProduct(q + 1, p);
  }

  lemma TwiceProduct(q: nat, p: nat)
    ensures q * (2 * p) == 2 * (q * p)
  {
  }

  /** The group at which probing for `key` starts: the top `bits` bits of its hash. */
  function Home(bits: nat, key: Key): (g: nat)
    requires bits <= 64
    ensures g < Pow2(bits)
    ensures g * Pow2(64 - bits) <= key.hash < (g + 1) * Pow2(64 - bits)
  {
    ShiftRightBounds(key.hash, bits, 64 - bits);
    ShiftRightIsQuotient(key.hash, 64 - bits);
    ShiftRight(key.hash, 64 - bits)
  }

  /** The metadata byte of an element: its low hash byte, moved off the two
      reserved values without changing it modulo 8. */
  function ReducedHash(h: Hash): (r: nat)
    ensures 2 <= r < 256 && r % 8 == h % 8
    ensures h % 256 >= 2 ==> r == h % 256
    ensures h % 256 < 2 ==> r < 16
  {
    var b := h % 256;
    if b < 2 then b + 8 else b
  }

  // ----- size policy -----

  function BitWidth(n: nat): nat {
    if n == 0 then 0 else 1 + BitWidth(n / 2)
  }

  lemma {:induction false} BitWidthBounds(n: nat)
    ensures n < Pow2(BitWidth(n))
    ensures n > 0 ==> BitWidth(n) >= 1 && Pow2(BitWidth(n) - 1) <= n
  {
    if n > 0 {
      BitWidthBounds(n / 2);
    }
  }

  /** Logarithm of the number of groups allotted when `n` groups are asked for:
      the least power of two that is at least both `n` and 2. */
  function SizeBits(n: nat): (b: nat)
    ensures b >= 1 && n <= Pow2(b) && (b > 1 ==> Pow2(b - 1) < n)
  {
    if n <= 2 then 1 else
      BitWidthBounds(n - 1);
      BitWidth(n - 1)
  }

  /** Logarithm of the number of groups for an element capacity of `n`. */
  function BitsFor(n: nat): nat {
    SizeBits(n / 15 + 1)
  }

  /** The element capacity that a request for `n` elements gets: one slot is the
      sentinel's. */
  function CapacityFor(n: nat): (c: nat)
    ensures c >= n
  {
    15 * Pow2(BitsFor(n)) - 1
  }

  /** The load at which a fresh table grows, with maximum load factor 7/8: small tables
      may fill up, others not beyond the last whole number within the factor. */
  function InitialMaxLoad(capacity: nat): (m: nat)
    ensures m <= capacity
    ensures capacity <= 29 ==> m == capacity
    ensures capacity > 29 ==> 8 * m <= 7 * capacity < 8 * (m + 1)
  {
    if capacity <= 29 then capacity else 7 * capacity / 8
  }

  /** n divided by 7/8, rounded up. */
  function ForLoad(n: nat): nat {
    (8 * n + 6) / 7
  }

  /** The capacity asked for when a table of `size` elements is full. */
  function GrowthRequest(size: nat): nat {
    ForLoad(size + size / 61 + 1)
  }

  /** Rounding a capacity up again does not move it. */
  lemma CapacityForIsStable(n: nat)
    ensures CapacityFor(CapacityFor(n)) == CapacityFor(n)
    ensures BitsFor(CapacityFor(n)) == BitsFor(n)
  {
    var b := BitsFor(n);
    assert CapacityFor(n) / 15 + 1 == Pow2(b);
    SizeBitsOfPowerOfTwo(b);
  }

  lemma SizeBitsOfPowerOfTwo(b: nat)
    requires b >= 1
    ensures SizeBits(Pow2(b)) == b
  {
    LeastPower(Pow2(b), b);
  }

  ghost predicate IsLeastPower(n: nat, b: nat) {
    b >= 1 && n <= Pow2(b) && (b > 1 ==> Pow2(b - 1) < n)
  }

  /** The number of groups allotted for `n` is the least power of two, from 2 on, that is
      at least `n`, and nothing else is. */
  lemma LeastPower(n: nat, b: nat)
    ensures IsLeastPower(n, b) <==> b == SizeBits(n)
  {
    var c := SizeBits(n);
    if IsLeastPower(n, b) {
      if c < b - 1 {
        Pow2Grows(c, b - 1);
      } else if b < c - 1 {
        Pow2Grows(b, c - 1);
      }
    }
  }

  lemma {:induction false} Pow2Grows(a: nat, b: nat)
    requires a < b
    ensures Pow2(a) < Pow2(b)
  {
    if a + 1 < b {
      Pow2Grows(a, b - 1);
    }
  }

  /** A table allotted for n / (7/8) elements holds more than n - 1 before it grows:
      rounding down in the load limit never undoes rounding up in the request. */
  lemma LoadCoversRequest(n: nat)
    ensures InitialMaxLoad(CapacityFor(ForLoad(n))) >= n
  {
  }

  /** Growing makes room: the new load limit exceeds the old size. */
  lemma GrowthMakesRoom(size: nat)
    ensures InitialMaxLoad(CapacityFor(GrowthRequest(size))) > size
  {
    LoadCoversRequest(size + size / 61 + 1);
  }

  /** The element capacity of 2^b groups. */
  function CapacityOf(b: nat): (c: nat) { 15 * Pow2(b) - 1 }

  /** 2^b is the least number of groups, from 2 on, whose capacity is at least `n` and
      holds `load` elements at the load factor 7/8. */
  ghost predicate LeastGroups(n: nat, load: nat, b: nat) {
    && b >= 1 && CapacityOf(b) >= n && 7 * CapacityOf(b) >= 8 * load
    && (b > 1 ==> CapacityOf(b - 1) < n || 7 * CapacityOf(b - 1) < 8 * load)
  }

  /** Division by the load factor gives the least capacity that holds n elements at it. */
  lemma ForLoadIsLeast(n: nat, c: nat)
    ensures 7 * c >= 8 * n <==> c >= ForLoad(n)
  {
  }

  /** A request for n elements gets the least capacity that suffices. */
  lemma LeastCapacity(n: nat, b: nat)
    ensures LeastGroups(n, 0, b) <==> b == BitsFor(n)
    ensures LeastGroups(n, 0, b) ==> CapacityFor(n) == CapacityOf(b)
  {
    LeastPower(n / 15 + 1, b);
    assert forall p: nat :: 15 * p - 1 >= n <==> p >= n / 15 + 1;
  }

  /** Growth from `size` asks for the least number of groups that hold one element more
      and a sixty-first of the old ones at the load factor, and for no other. */
  lemma LeastGrowth(size: nat, b: nat)
    ensures LeastGroups(0, size + size / 61 + 1, b) <==> b == BitsFor(GrowthRequest(size))
  {
    LeastCapacity(GrowthRequest(size), b);
    ForLoadIsLeast(size + size / 61 + 1, CapacityOf(b));
    if b > 1 {
      ForLoadIsLeast(size + size / 61 + 1, CapacityOf(b - 1));
    }
  }

  /** A table that is full at the limit it was made with doubles its groups. */
  lemma GrowthDoubles(b: nat)
    requires b >= 1
    ensures BitsFor(GrowthRequest(InitialMaxLoad(CapacityOf(b)))) == b + 1
  {
    var size := InitialMaxLoad(CapacityOf(b));
    DoubleHolds(CapacityOf(b), size);
    LeastGrowth(size, b + 1);
  }

  lemma DoubleHolds(c: nat, size: nat)
    requires c >= 29 && size == InitialMaxLoad(c)
    ensures 7 * c < 8 * (size + size / 61 + 1) <= 7 * (2 * c + 1)
  {
  }

  // ----- the lookup invariant -----

  /** The group that the i-th probe for `key` looks at. */
  ghost function PathAt(a: Arrays, key: Key, i: nat): (g: nat)
    requires a.WellFormed()
    ensures g < |a.over|
  {
    Probe(Home(a.bits, key), i, |a.over|)
  }

  /** The probe that reaches group g first. */
  ghost function Rank(a: Arrays, key: Key, g: nat): (i: nat)
    requires a.WellFormed() && g < |a.over|
    ensures i < |a.over| && PathAt(a, key, i) == g
  {
    IndexOf(Home(a.bits, key), a.bits, g)
  }

  lemma RankIsFirst(a: Arrays, key: Key, i: nat)
    requires a.WellFormed()
    ensures Rank(a, key, PathAt(a, key, i)) <= i
    ensures i < |a.over| ==> Rank(a, key, PathAt(a, key, i)) == i
  {
    IndexOfIsFirst(Home(a.bits, key), a.bits, i);
  }

  /** The first `i` groups on the path of `key` all have its overflow bit set. */
  ghost predicate Marked(a: Arrays, key: Key, i: nat)
    requires a.WellFormed()
  {
    forall j: nat :: j < i ==> key.hash % 8 in a.over[PathAt(a, key, j)]
  }

  /** A lookup for `key` gets as far as group `g`. */
  ghost predicate Reaches(a: Arrays, key: Key, g: nat)
    requires a.WellFormed() && g < |a.over|
  {
    Marked(a, key, Rank(a, key, g))
  }

  /** Slot x is free, the sentinel, or holds an element under its reduced hash. */
  ghost predicate Settled(a: Arrays, x: nat)
    requires x < |a.slots|
  {
    var s := a.slots[x];
    && (s.meta == SENTINEL <==> a.SentinelAt(x))
    && (s.meta < 2 ==> s.elem == None)
    && (s.meta >= 2 ==> s.elem.Some? && s.meta == ReducedHash(s.elem.value.key.hash))
  }

  function KeyIn(s: Slot): Option<Key> {
    if s.elem.Some? then Some(s.elem.value.key) else None
  }

  ghost predicate DistinctKeys(slots: seq<Slot>) {
    forall x, y :: 0 <= x < y < |slots| && slots[x].elem.Some? && slots[y].elem.Some? ==>
      slots[x].elem.value.key != slots[y].elem.value.key
  }

  ghost predicate UniqueKeys(a: Arrays) {
    DistinctKeys(a.slots)
  }

  ghost predicate Valid(a: Arrays) {
    && a.WellFormed()
    && (forall x :: 0 <= x < |a.slots| ==> Settled(a, x))
    && (forall x :: 0 <= x < |a.slots| && a.slots[x].elem.Some? ==>
         Reaches(a, a.slots[x].elem.value.key, x / 15))
    && UniqueKeys(a)
  }

  ghost predicate Stores(a: Arrays, e: Elem) {
    exists x :: 0 <= x < |a.slots| && a.slots[x].elem == Some(e)
  }

  ghost predicate SameElements(a: Arrays, b: Arrays) {
    forall e :: Stores(a, e) <==> Stores(b, e)
  }

  function Holds(s: Slot): int { if s.elem.Some? then 1 else 0 }
}
