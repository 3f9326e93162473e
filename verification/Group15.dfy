/** The metadata of one group of 15 slots, in its two layouts.

    The logical layout is one byte per slot plus an overflow byte. Without SIMD the
    same bits live in two 64-bit words of four 16-bit lanes: lane k of the first word
    holds bit k of every byte, lane k of the second word holds bit k + 4, and position
    15 of the lanes is the overflow byte. */

/** Machine words as the set of their one bits. */
module Words {
  type Word = w: set<nat> | forall i :: i in w ==> i < 64

  const ALL_ONES: Word := set i: nat | i < 64

  function Not(x: Word): Word { ALL_ONES - x }

  function Or(x: Word, y: Word): Word { x + y }

  function And(x: Word, y: Word): Word { x * y }

  function Xor(x: Word, y: Word): Word { (x - y) + (y - x) }

  function Left(x: Word, n: nat): (r: Word)
    ensures forall i: nat :: i in r <==> n <= i < 64 && i - n in x
  {
    set i | i in x && i + n < 64 :: i + n
  }

  function Right(x: Word, n: nat): (r: Word)
    ensures forall i: nat :: i in r <==> i + n in x
  {
    set i | i in x && n <= i :: i - n
  }

  /** The conversion to 32 bits. */
  function Narrow(x: Word): Word { set i | i in x && i < 32 }

  /** x & 0x7FFF */
  function Low15(x: Word): Word { set i | i in x && i < 15 }

  /** x % 8 */
  function Low3(x: Word): (n: nat)
    ensures n < 8
  {
    (if 0 in x then 1 else 0) + (if 1 in x then 2 else 0) + (if 2 in x then 4 else 0)
  }
}

/** The logical layout: what the SIMD code addresses byte by byte. */
module PlainGroup {
  import opened Tables

  datatype Group = Group(meta: seq<nat>, over: set<nat>) {
    predicate WellFormed() {
      |meta| == 15 && forall p :: 0 <= p < 15 ==> meta[p] < 256
    }

    /** No slot but the last ever holds the sentinel value. */
    predicate Regular() {
      WellFormed() && forall p :: 0 <= p < 14 ==> meta[p] != SENTINEL
    }

    function Put(pos: nat, b: nat): Group
      requires pos < |meta|
    {
      Group(meta[pos := b], over)
    }

    function Marked(hash: nat): Group { Group(meta, over + {hash % 8}) }

    predicate NotOverflowed(hash: nat) { hash % 8 !in over }

    /** Asked with the slot's byte in place of the hash it came from. */
    predicate MaybeCausedOverflow(pos: nat)
      requires pos < |meta|
    {
      !NotOverflowed(meta[pos])
    }

    /** The positions whose byte is b. */
    function Having(b: nat): set<nat> { set p | 0 <= p < |meta| && meta[p] == b }
  }

  const BLANK := Group(seq(15, _ => AVAILABLE), {})

  /** Every operation of a group keeps the sentinel value off slots 0 to 13. */
  lemma OperationsKeepRegular(g: Group, pos: nat, hash: Hash)
    requires g.Regular() && pos < 15
    ensures g.Put(pos, ReducedHash(hash)).Regular()
    ensures g.Put(pos, AVAILABLE).Regular()
    ensures g.Put(14, SENTINEL).Regular()
    ensures g.Marked(hash).Regular()
  {}

  /** Testing the last slot only is testing the given slot, on regular groups and no others. */
  lemma LastSlotTestIsEnough(g: Group)
    requires g.WellFormed()
    ensures g.Regular() <==>
      forall pos :: 0 <= pos < 15 ==> (g.meta[pos] == SENTINEL <==> pos == 14 && g.meta[14] == SENTINEL)
  {
    if forall pos :: 0 <= pos < 15 ==> (g.meta[pos] == SENTINEL <==> pos == 14 && g.meta[14] == SENTINEL) {
      forall p | 0 <= p < 14 ensures g.meta[p] != SENTINEL {
        assert g.meta[p] == SENTINEL ==> p == 14;
      }
    }
  }

  lemma SameClass(g: Group, pos: nat, y: nat)
    requires g.WellFormed() && pos < 15 && y == g.meta[pos] % 8
    ensures g.NotOverflowed(y) <==> !g.MaybeCausedOverflow(pos)
  {}

  /** The stored byte finds the overflow bit of the whole hash, whatever was marked before. */
  lemma StoredByteFindsOverflowBit(g: Group, pos: nat, hash: Hash)
    requires g.WellFormed() && pos < 15
    ensures g.Put(pos, ReducedHash(hash)).MaybeCausedOverflow(pos) <==> !g.NotOverflowed(hash)
  {
    assert g.Put(pos, ReducedHash(hash)).meta[pos] == ReducedHash(hash);
  }
}

module InterleavedGroup {
  import opened Tables
  import opened Words
  import opened PlainGroup

  /** The table `mask` of set_impl: bit k of n at the bottom of lane k. */
  function Spread(n: nat): Word
    requires n < 16
  {
    match n
    case 0 => {} case 1 => {0} case 2 => {16} case 3 => {0, 16}
    case 4 => {32} case 5 => {0, 32} case 6 => {16, 32} case 7 => {0, 16, 32}
    case 8 => {48} case 9 => {0, 48} case 10 => {16, 48} case 11 => {0, 16, 48}
    case 12 => {32, 48} case 13 => {0, 32, 48} case 14 => {16, 32, 48}
    case _ => {0, 16, 32, 48}
  }

  /** The table `imask` of set_impl. */
  function Unspread(n: nat): Word
    requires n < 16
  {
    match n
    case 0 => {0, 16, 32, 48} case 1 => {16, 32, 48} case 2 => {0, 32, 48} case 3 => {32, 48}
    case 4 => {0, 16, 48} case 5 => {16, 48} case 6 => {0, 48} case 7 => {48}
    case 8 => {0, 16, 32} case 9 => {16, 32} case 10 => {0, 32} case 11 => {32}
    case 12 => {0, 16} case 13 => {16} case 14 => {0}
    case _ => {}
  }

  function Lane(k: nat): Word
    requires k < 4
  {
    set i | i in ALL_ONES && i / 16 == k
  }

  /** The table `mask` of match_impl: lane k all ones when bit k of n is set. */
  function Fill(n: nat): Word
    requires n < 16
  {
    match n
    case 0 => {} case 1 => Lane(0) case 2 => Lane(1) case 3 => Lane(0) + Lane(1)
    case 4 => Lane(2) case 5 => Lane(0) + Lane(2) case 6 => Lane(1) + Lane(2)
    case 7 => Lane(0) + Lane(1) + Lane(2)
    case 8 => Lane(3) case 9 => Lane(0) + Lane(3) case 10 => Lane(1) + Lane(3)
    case 11 => Lane(0) + Lane(1) + Lane(3)
    case 12 => Lane(2) + Lane(3) case 13 => Lane(0) + Lane(2) + Lane(3)
    case 14 => Lane(1) + Lane(2) + Lane(3)
    case _ => ALL_ONES
  }

  /** Bit k of a number below 16. */
  predicate Bit(n: nat, k: nat)
    requires n < 16 && k < 4
  {
    match k
    case 0 => n % 2 == 1
    case 1 => n / 2 % 2 == 1
    case 2 => n / 4 % 2 == 1
    case _ => n / 8 == 1
  }

  /** The bit of lane k at a position. */
  function At(pos: nat, k: nat): nat { pos + 16 * k }

  /** The four bits a word holds for a position. */
  function Nibble(x: Word, pos: nat): (n: nat)
    requires pos < 16
    ensures n < 16
    ensures forall k: nat :: k < 4 ==> (Bit(n, k) <==> At(pos, k) in x)
  {
    (if At(pos, 0) in x then 1 else 0) + (if At(pos, 1) in x then 2 else 0) +
    (if At(pos, 2) in x then 4 else 0) + (if At(pos, 3) in x then 8 else 0)
  }

  lemma SameBits(n: nat, m: nat)
    requires n < 16 && m < 16
    requires forall k: nat :: k < 4 ==> (Bit(n, k) <==> Bit(m, k))
    ensures n == m
  {
    assert Bit(n, 0) <==> Bit(m, 0);
    assert Bit(n, 1) <==> Bit(m, 1);
    assert Bit(n, 2) <==> Bit(m, 2);
    assert Bit(n, 3) <==> Bit(m, 3);
  }

  // ----- set_impl on one word -----

  function SetNibble(x: Word, pos: nat, n: nat): Word
    requires pos < 16 && n < 16
  {
    And(Or(x, Left(Spread(n), pos)), Not(Left(Unspread(n), pos)))
  }

  lemma TablesSpreadBits(n: nat, i: nat)
    requires n < 16
    ensures i in Spread(n) <==> i % 16 == 0 && i < 64 && Bit(n, i / 16)
    ensures i in Unspread(n) <==> i % 16 == 0 && i < 64 && !Bit(n, i / 16)
  {}

  lemma SetNibbleBit(x: Word, pos: nat, n: nat, q: nat, k: nat)
    requires pos < 16 && n < 16 && q < 16 && k < 4
    ensures At(q, k) in SetNibble(x, pos, n) <==> if q == pos then Bit(n, k) else At(q, k) in x
  {
    var i := At(q, k);
    if i >= pos {
      TablesSpreadBits(n, i - pos);
    }
  }

  lemma {:induction false} SetNibbleNibble(x: Word, pos: nat, n: nat, q: nat)
    requires pos < 16 && n < 16 && q < 16
    ensures Nibble(SetNibble(x, pos, n), q) == if q == pos then n else Nibble(x, q)
  {
    var y := SetNibble(x, pos, n);
    forall k: nat | k < 4 ensures Bit(Nibble(y, q), k) <==> Bit(if q == pos then n else Nibble(x, q), k) {
      SetNibbleBit(x, pos, n, q, k);
    }
    SameBits(Nibble(y, q), if q == pos then n else Nibble(x, q));
  }

  // ----- the two words together -----

  function ByteAt(m0: Word, m1: Word, pos: nat): (b: nat)
    requires pos < 16
    ensures b < 256
  {
    Nibble(m0, pos) + 16 * Nibble(m1, pos)
  }

  /** The bit of position 15 in the 16-bit half-word `c` of the two words. */
  predicate OverflowBit(m0: Word, m1: Word, c: nat) {
    if c < 4 then At(15, c) in m0 else At(15, c - 4) in m1
  }

  /** The logical group that two words represent. */
  function Decoded(m0: Word, m1: Word): (g: Group)
    ensures g.WellFormed()
    ensures forall c :: c in g.over ==> 0 <= c < 8
  {
    Group(seq(15, p requires 0 <= p < 15 => ByteAt(m0, m1, p)),
          set c: nat | c < 8 && OverflowBit(m0, m1, c))
  }

  lemma ByteEquals(m0: Word, m1: Word, pos: nat, n: nat)
    requires pos < 16 && n < 256
    ensures ByteAt(m0, m1, pos) == n <==>
      forall k: nat :: k < 4 ==> (Bit(n % 16, k) <==> At(pos, k) in m0) && (Bit(n / 16, k) <==> At(pos, k) in m1)
  {
    var lo, hi := Nibble(m0, pos), Nibble(m1, pos);
    assert ByteAt(m0, m1, pos) == n <==> lo == n % 16 && hi == n / 16;
    if forall k: nat :: k < 4 ==> (Bit(n % 16, k) <==> At(pos, k) in m0) && (Bit(n / 16, k) <==> At(pos, k) in m1) {
      SameBits(lo, n % 16);
      SameBits(hi, n / 16);
    }
  }

  // ----- match_impl -----

  /** Bit p of the result is the conjunction of bit p of the four lanes. */
  function AllLanes(x: Word): Word {
    var y := Narrow(And(x, Right(x, 32)));
    Low15(And(y, Right(y, 16)))
  }

  /** Bit p of the result is the disjunction of bit p of the four lanes. */
  function AnyLane(x: Word): Word {
    var y := Narrow(Or(x, Right(x, 32)));
    Low15(Or(y, Right(y, 16)))
  }

  lemma AllLanesAt(x: Word, p: nat)
    ensures p in AllLanes(x) <==> p < 15 && forall k: nat :: k < 4 ==> At(p, k) in x
  {
    assert At(p, 0) == p && At(p, 1) == p + 16 && At(p, 2) == p + 32 && At(p, 3) == p + 16 + 32;
  }

  lemma AnyLaneAt(x: Word, p: nat)
    ensures p in AnyLane(x) <==> p < 15 && exists k: nat :: k < 4 && At(p, k) in x
  {
    assert At(p, 0) == p && At(p, 1) == p + 16 && At(p, 2) == p + 32 && At(p, 3) == p + 16 + 32;
  }

  lemma FillBits(n: nat, i: nat)
    requires n < 16 && i < 64
    ensures i in Fill(n) <==> Bit(n, i / 16)
  {}

  function Differences(m0: Word, m1: Word, n: nat): Word
    requires n < 256
  {
    Or(Xor(m1, Fill(n / 16)), Xor(m0, Fill(n % 16)))
  }

  lemma DifferencesAt(m0: Word, m1: Word, n: nat, p: nat, k: nat)
    requires n < 256 && p < 16 && k < 4
    ensures At(p, k) in Not(Differences(m0, m1, n)) <==>
      (Bit(n % 16, k) <==> At(p, k) in m0) && (Bit(n / 16, k) <==> At(p, k) in m1)
  {
    FillBits(n % 16, At(p, k));
    FillBits(n / 16, At(p, k));
  }

  /** The shifts and masks select exactly the positions whose byte is n. */
  lemma {:induction false} MatchFindsBytes(m0: Word, m1: Word, n: nat)
    requires n < 256
    ensures AllLanes(Not(Differences(m0, m1, n))) == Decoded(m0, m1).Having(n)
  {
    var x := Not(Differences(m0, m1, n));
    forall p: nat ensures p in AllLanes(x) <==> p in Decoded(m0, m1).Having(n) {
      AllLanesAt(x, p);
      if p < 15 {
        forall k: nat | k < 4
          ensures At(p, k) in x <==>
            (Bit(n % 16, k) <==> At(p, k) in m0) && (Bit(n / 16, k) <==> At(p, k) in m1)
        {
          DifferencesAt(m0, m1, n, p, k);
        }
        ByteEquals(m0, m1, p, n);
      }
    }
  }

  // ----- match_available, match_occupied, is_occupied -----

  lemma ZeroByte(m0: Word, m1: Word, p: nat)
    requires p < 16
    ensures ByteAt(m0, m1, p) == 0 <==> forall k: nat :: k < 4 ==> At(p, k) !in Or(m0, m1)
  {
    ByteEquals(m0, m1, p, 0);
    assert forall k: nat :: k < 4 ==> !Bit(0, k);
  }

  lemma AvailableFindsZeros(m0: Word, m1: Word)
    ensures AllLanes(Not(Or(m0, m1))) == Decoded(m0, m1).Having(AVAILABLE)
  {
    var x := Not(Or(m0, m1));
    forall p: nat ensures p in AllLanes(x) <==> p in Decoded(m0, m1).Having(AVAILABLE) {
      AllLanesAt(x, p);
      if p < 15 {
        assert forall k: nat :: k < 4 ==> At(p, k) < 64;
        ZeroByte(m0, m1, p);
      }
    }
  }

  lemma OccupiedFindsNonzeros(m0: Word, m1: Word)
    ensures AnyLane(Or(m0, m1)) == Low15(Not(Decoded(m0, m1).Having(AVAILABLE)))
  {
    forall p: nat
      ensures p in AnyLane(Or(m0, m1)) <==> p < 15 && p !in Decoded(m0, m1).Having(AVAILABLE)
    {
      AnyLaneAt(Or(m0, m1), p);
      if p < 15 {
        ZeroByte(m0, m1, p);
      }
    }
  }

  /** The bit of every lane at a position: 0x0001000100010001 << pos. */
  function AllBits(pos: nat): Word { Left({0, 16, 32, 48}, pos) }

  lemma AllBitsAre(pos: nat, i: nat)
    requires pos < 16
    ensures i in AllBits(pos) <==> exists k: nat :: k < 4 && i == At(pos, k)
  {
    assert At(pos, 0) - pos == 0 && At(pos, 1) - pos == 16 && At(pos, 2) - pos == 32 && At(pos, 3) - pos == 48;
    if i in AllBits(pos) {
      assert i == At(pos, (i - pos) / 16);
    }
  }

  lemma OccupiedAt(m0: Word, m1: Word, pos: nat)
    requires pos < 15
    ensures And(Or(m0, m1), AllBits(pos)) != {} <==> Decoded(m0, m1).meta[pos] != AVAILABLE
  {
    ZeroByte(m0, m1, pos);
    if i :| i in And(Or(m0, m1), AllBits(pos)) {
      AllBitsAre(pos, i);
    }
    if k: nat :| k < 4 && At(pos, k) in Or(m0, m1) {
      AllBitsAre(pos, At(pos, k));
      assert At(pos, k) in And(Or(m0, m1), AllBits(pos));
    }
  }

  // ----- is_sentinel -----

  /** The four bits of position 14: 0x4000400040004000. */
  const LAST_SLOT: Word := {14, 30, 46, 62}

  lemma MaskedToFirst(x: Word)
    ensures And(x, LAST_SLOT) == {14} <==> 14 in x && 30 !in x && 46 !in x && 62 !in x
  {
    assert 14 in x <==> 14 in And(x, LAST_SLOT);
    assert 30 in x <==> 30 in And(x, LAST_SLOT);
    assert 46 in x <==> 46 in And(x, LAST_SLOT);
    assert 62 in x <==> 62 in And(x, LAST_SLOT);
  }

  lemma MaskedToNone(x: Word)
    ensures And(x, LAST_SLOT) == {} <==> 14 !in x && 30 !in x && 46 !in x && 62 !in x
  {
    assert 14 in x <==> 14 in And(x, LAST_SLOT);
    assert 30 in x <==> 30 in And(x, LAST_SLOT);
    assert 46 in x <==> 46 in And(x, LAST_SLOT);
    assert 62 in x <==> 62 in And(x, LAST_SLOT);
  }

  lemma SentinelTest(m0: Word, m1: Word)
    ensures And(m0, LAST_SLOT) == {14} && And(m1, LAST_SLOT) == {} <==>
      Decoded(m0, m1).meta[14] == SENTINEL
  {
    MaskedToFirst(m0);
    MaskedToNone(m1);
    assert At(14, 0) == 14 && At(14, 1) == 30 && At(14, 2) == 46 && At(14, 3) == 62;
  }

  // ----- maybe_caused_overflow -----

  /** Gathers three lane bits of the first word into the low three bits. */
  function Gathered(m0: Word, pos: nat): Word {
    var x := And(Right(m0, pos), {0, 16, 32});
    Narrow(Or(Or(x, Right(x, 15)), Right(x, 30)))
  }

  lemma GatheredBit(m0: Word, pos: nat, k: nat)
    requires pos < 15 && k < 3
    ensures 16 * k in And(Right(m0, pos), {0, 16, 32}) <==> At(pos, k) in m0
  {
    assert 16 * k in {0, 16, 32};
  }

  lemma Folded(x: Word)
    requires x <= {0, 16, 32}
    ensures var y := Narrow(Or(Or(x, Right(x, 15)), Right(x, 30)));
      (0 in y <==> 0 in x) && (1 in y <==> 16 in x) && (2 in y <==> 32 in x)
  {
    var a, b := Right(x, 15), Right(x, 30);
    assert (0 in a <==> 15 in x) && (1 in a <==> 16 in x) && (2 in a <==> 17 in x);
    assert (0 in b <==> 30 in x) && (1 in b <==> 31 in x) && (2 in b <==> 32 in x);
    assert 1 !in x && 2 !in x && 15 !in x && 17 !in x && 30 !in x && 31 !in x;
  }

  lemma GatheredBits(m0: Word, pos: nat)
    requires pos < 15
    ensures 0 in Gathered(m0, pos) <==> At(pos, 0) in m0
    ensures 1 in Gathered(m0, pos) <==> At(pos, 1) in m0
    ensures 2 in Gathered(m0, pos) <==> At(pos, 2) in m0
  {
    GatheredBit(m0, pos, 0);
    GatheredBit(m0, pos, 1);
    GatheredBit(m0, pos, 2);
    Folded(And(Right(m0, pos), {0, 16, 32}));
  }

  lemma ByteModulo8(m0: Word, m1: Word, pos: nat)
    requires pos < 15
    ensures ByteAt(m0, m1, pos) % 8 ==
      (if At(pos, 0) in m0 then 1 else 0) + (if At(pos, 1) in m0 then 2 else 0) + (if At(pos, 2) in m0 then 4 else 0)
  {}

  lemma GatheredIsByteModulo8(m0: Word, m1: Word, pos: nat)
    requires pos < 15
    ensures Low3(Gathered(m0, pos)) == ByteAt(m0, m1, pos) % 8
  {
    GatheredBits(m0, pos);
    ByteModulo8(m0, m1, pos);
  }

  lemma CausedOverflowTest(m0: Word, m1: Word, pos: nat)
    requires pos < 15
    ensures var g := Decoded(m0, m1);
      g.NotOverflowed(Low3(Gathered(m0, pos))) <==> !g.MaybeCausedOverflow(pos)
  {
    GatheredIsByteModulo8(m0, m1, pos);
    SameClass(Decoded(m0, m1), pos, Low3(Gathered(m0, pos)));
  }

  // ----- the group -----

  /** The group without SIMD. Every operation does to `Layout` what it does to the bytes. */
  class Group15 {
    var m0: Word
    var m1: Word

    ghost function Layout(): (g: Group)
      reads this
      ensures g.WellFormed()
    {
      Decoded(m0, m1)
    }

    constructor ()
      ensures Layout() == BLANK
    {
      m0, m1 := {}, {};
      new;
      assert Layout().over == {};
    }

    method SetByte(pos: nat, n: nat)
      requires pos < 15 && n < 256
      modifies this
      ensures Layout() == old(Layout()).Put(pos, n)
    {
      ghost var was := Layout();
      m0, m1 := SetNibble(m0, pos, n % 16), SetNibble(m1, pos, n / 16);
      SetByteKeepsOthers(old(m0), old(m1), pos, n);
    }

    method Set(pos: nat, hash: Hash)
      requires pos < 15
      modifies this
      ensures Layout() == old(Layout()).Put(pos, ReducedHash(hash))
    {
      SetByte(pos, ReducedHash(hash));
    }

    method SetSentinel()
      modifies this
      ensures Layout() == old(Layout()).Put(14, SENTINEL)
    {
      SetByte(14, SENTINEL);
    }

    method Reset(pos: nat)
      requires pos < 15
      modifies this
      ensures Layout() == old(Layout()).Put(pos, AVAILABLE)
    {
      SetByte(pos, AVAILABLE);
    }

    method MarkOverflow(hash: Hash)
      modifies this
      ensures Layout() == old(Layout()).Marked(hash)
    {
      MarkKeepsBytes(m0, m1, hash % 8);
      if hash % 8 < 4 {
        m0 := Or(m0, {At(15, hash % 8)});
      } else {
        m1 := Or(m1, {At(15, hash % 8 - 4)});
      }
    }

    method Match(hash: Hash) returns (found: set<nat>)
      ensures found == Layout().Having(ReducedHash(hash))
    {
      var n := ReducedHash(hash);
      var x := Xor(m0, Fill(n % 16));
      x := Not(Or(Xor(m1, Fill(n / 16)), x));
      found := AllLanes(x);
      MatchFindsBytes(m0, m1, n);
    }

    method MatchAvailable() returns (found: set<nat>)
      ensures found == Layout().Having(AVAILABLE)
    {
      found := AllLanes(Not(Or(m0, m1)));
      AvailableFindsZeros(m0, m1);
    }

    method MatchOccupied() returns (found: set<nat>)
      ensures found == Low15(Not(Layout().Having(AVAILABLE)))
    {
      found := AnyLane(Or(m0, m1));
      OccupiedFindsNonzeros(m0, m1);
    }

    method IsOccupied(pos: nat) returns (b: bool)
      requires pos < 15
      ensures b <==> Layout().meta[pos] != AVAILABLE
    {
      b := And(Or(m0, m1), AllBits(pos)) != {};
      OccupiedAt(m0, m1, pos);
    }

    method IsSentinel(pos: nat) returns (b: bool)
      requires pos < 15
      ensures b <==> pos == 14 && Layout().meta[14] == SENTINEL
      ensures Layout().Regular() ==> (b <==> Layout().meta[pos] == SENTINEL)
    {
      b := pos == 14 && And(m0, LAST_SLOT) == {14} && And(m1, LAST_SLOT) == {};
      SentinelTest(m0, m1);
      LastSlotTestIsEnough(Layout());
    }

    method IsNotOverflowed(hash: nat) returns (b: bool)
      ensures b <==> Layout().NotOverflowed(hash)
    {
      b := !OverflowBit(m0, m1, hash % 8);
    }

    method MaybeCausedOverflow(pos: nat) returns (b: bool)
      requires pos < 15
      ensures b <==> Layout().MaybeCausedOverflow(pos)
    {
      var y := Low3(Gathered(m0, pos));
      var clear := IsNotOverflowed(y);
      CausedOverflowTest(m0, m1, pos);
      b := !clear;
    }
  }

  lemma SetByteKeepsOthers(m0: Word, m1: Word, pos: nat, n: nat)
    requires pos < 15 && n < 256
    ensures Decoded(SetNibble(m0, pos, n % 16), SetNibble(m1, pos, n / 16)) == Decoded(m0, m1).Put(pos, n)
  {
    var x0, x1 := SetNibble(m0, pos, n % 16), SetNibble(m1, pos, n / 16);
    forall q: nat | q < 15
      ensures ByteAt(x0, x1, q) == if q == pos then n else ByteAt(m0, m1, q)
    {
      SetNibbleNibble(m0, pos, n % 16, q);
      SetNibbleNibble(m1, pos, n / 16, q);
    }
    forall c: nat | c < 8 ensures OverflowBit(x0, x1, c) <==> OverflowBit(m0, m1, c) {
      if c < 4 {
        SetNibbleBit(m0, pos, n % 16, 15, c);
      } else {
        SetNibbleBit(m1, pos, n / 16, 15, c - 4);
      }
    }
    assert Decoded(x0, x1).meta == Decoded(m0, m1).Put(pos, n).meta;
  }

  lemma MarkKeepsBytes(m0: Word, m1: Word, c: nat)
    requires c < 8
    ensures c < 4 ==> Decoded(Or(m0, {At(15, c)}), m1) == Decoded(m0, m1).Marked(c)
    ensures c >= 4 ==> Decoded(m0, Or(m1, {At(15, c - 4)})) == Decoded(m0, m1).Marked(c)
  {
    forall p: nat | p < 15
      ensures c < 4 ==> Nibble(Or(m0, {At(15, c)}), p) == Nibble(m0, p)
      ensures c >= 4 ==> Nibble(Or(m1, {At(15, c - 4)}), p) == Nibble(m1, p)
    {}
  }
}
