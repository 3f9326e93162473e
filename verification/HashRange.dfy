/** Hashing a range of bytes, read in blocks or one byte at a time. */

/** Words under assembly, as their bytes from the least significant one up. */
module ByteWords {
  type Bytes = seq<bv8>

  function Zeros(size: nat): Bytes { seq(size, _ => 0) }

  /** The conversion of a byte to a word of `size` bytes. */
  function Single(b: bv8, size: nat): Bytes
    requires size > 0
  {
    [b] + Zeros(size - 1)
  }

  /** x << 8 * k */
  function Shifted(x: Bytes, k: nat): (r: Bytes)
    ensures |r| == |x|
  {
    seq(|x|, i requires 0 <= i < |x| => if i < k then 0 else x[i - k])
  }

  function Or(x: Bytes, y: Bytes): (r: Bytes)
    requires |x| == |y|
    ensures |r| == |x|
  {
    seq(|x|, i requires 0 <= i < |x| => x[i] | y[i])
  }

  /** The conversion to a wider word. */
  function Widened(x: Bytes, size: nat): (r: Bytes)
    requires |x| <= size
    ensures |r| == size
  {
    x + Zeros(size - |x|)
  }

  /** Byte `i` of the range at byte position `k` of a word. */
  function ByteAt(s: Bytes, i: nat, k: nat, size: nat): Bytes
    requires i < |s| && size > 0
  {
    Shifted(Single(s[i], size), k)
  }

  function Read32(s: Bytes, p: nat): Bytes
    requires p + 4 <= |s|
  {
    Or(Or(Or(Single(s[p], 4), ByteAt(s, p + 1, 1, 4)), ByteAt(s, p + 2, 2, 4)), ByteAt(s, p + 3, 3, 4))
  }

  function Read64(s: Bytes, p: nat): Bytes
    requires p + 8 <= |s|
  {
    Or(Or(Or(Or(Or(Or(Or(Single(s[p], 8), ByteAt(s, p + 1, 1, 8)), ByteAt(s, p + 2, 2, 8)), ByteAt(s, p + 3, 3, 8)),
      ByteAt(s, p + 4, 4, 8)), ByteAt(s, p + 5, 5, 8)), ByteAt(s, p + 6, 6, 8)), ByteAt(s, p + 7, 7, 8))
  }

  lemma OrOnes(b: bv8)
    ensures b | 0 == b && 0 | b == b && b | b == b
  {}

  /** OR with one more byte above the bytes already there appends it. */
  lemma OrAppends(s: Bytes, b: bv8, size: nat)
    requires |s| < size
    ensures Or(Widened(s, size), Shifted(Single(b, size), |s|)) == Widened(s + [b], size)
  {
    var l, r := Or(Widened(s, size), Shifted(Single(b, size), |s|)), Widened(s + [b], size);
    forall i | 0 <= i < size ensures l[i] == r[i] {
      OrOnes(r[i]);
    }
  }

  lemma Read32IsSlice(s: Bytes, p: nat)
    requires p + 4 <= |s|
    ensures Read32(s, p) == s[p..p + 4]
  {
    var t := s[p..p + 4];
    assert Single(s[p], 4) == Widened(t[..1], 4);
    OrAppends(t[..1], t[1], 4);
    assert t[..1] + [t[1]] == t[..2];
    OrAppends(t[..2], t[2], 4);
    assert t[..2] + [t[2]] == t[..3];
    OrAppends(t[..3], t[3], 4);
    assert t[..3] + [t[3]] == t;
  }

  lemma Read64IsSlice(s: Bytes, p: nat)
    requires p + 8 <= |s|
    ensures Read64(s, p) == s[p..p + 8]
  {
    var t := s[p..p + 8];
    assert Single(s[p], 8) == Widened(t[..1], 8);
    OrAppends(t[..1], t[1], 8);
    assert t[..1] + [t[1]] == t[..2];
    OrAppends(t[..2], t[2], 8);
    assert t[..2] + [t[2]] == t[..3];
    OrAppends(t[..3], t[3], 8);
    assert t[..3] + [t[3]] == t[..4];
    OrAppends(t[..4], t[4], 8);
    assert t[..4] + [t[4]] == t[..5];
    OrAppends(t[..5], t[5], 8);
    assert t[..5] + [t[5]] == t[..6];
    OrAppends(t[..6], t[6], 8);
    assert t[..6] + [t[6]] == t[..7];
    OrAppends(t[..7], t[7], 8);
    assert t[..7] + [t[7]] == t;
  }

  /** u << 8 * k | v, in eight bytes. */
  function Overlaid(u: Bytes, v: Bytes, k: nat): (r: Bytes)
    requires |u| <= 8 && |v| <= 8
    ensures |r| == 8
  {
    Or(Shifted(Widened(u, 8), k), Widened(v, 8))
  }

  /** A tail of 4 to 7 bytes read as two 32-bit words, overlapping unless it has none to spare. */
  function TwoReads(s: Bytes, p: nat, n: nat): Bytes
    requires 4 <= n < 8 && p + n <= |s|
  {
    Overlaid(Read32(s, p + (n - 4)), Read32(s, p), n - 4)
  }

  lemma OrOfTwo(a: bv8, b: bv8, r: bv8)
    requires (a == 0 || a == r) && (b == 0 || b == r)
    requires a == r || b == r
    ensures a | b == r
  {}

  lemma MovedAt(x: Bytes, size: nat, k: nat, i: nat)
    requires |x| + k <= size && i < size
    ensures Shifted(Widened(x, size), k)[i] == if k <= i < k + |x| then x[i - k] else 0
  {}

  lemma TwoPlacesAt(u: Bytes, v: Bytes, k: nat, i: nat, r: bv8)
    requires |u| == 4 && |v| == 4 && k < 4 && i < 8
    requires k <= i < k + 4 ==> u[i - k] == r
    requires i < 4 ==> v[i] == r
    requires i >= k + 4 ==> r == 0
    ensures Overlaid(u, v, k)[i] == r
  {
    MovedAt(u, 8, k, i);
    OrOfTwo(Shifted(Widened(u, 8), k)[i], Widened(v, 8)[i], r);
  }

  lemma OverlaidIsTail(s: Bytes, p: nat, n: nat, u: Bytes, v: Bytes)
    requires 4 <= n < 8 && p + n <= |s|
    requires u == s[p + (n - 4)..p + n] && v == s[p..p + 4]
    ensures Overlaid(u, v, n - 4) == Widened(s[p..p + n], 8)
  {
    var l, r := Overlaid(u, v, n - 4), Widened(s[p..p + n], 8);
    forall i | 0 <= i < 8 ensures l[i] == r[i] {
      TwoPlacesAt(u, v, n - 4, i, r[i]);
    }
  }

  lemma TwoReadsIsTail(s: Bytes, p: nat, n: nat)
    requires 4 <= n < 8 && p + n <= |s|
    ensures TwoReads(s, p, n) == Widened(s[p..p + n], 8)
  {
    Read32IsSlice(s, p);
    Read32IsSlice(s, p + (n - 4));
    OverlaidIsTail(s, p, n, Read32(s, p + (n - 4)), Read32(s, p));
  }

  /** The bytes at places x1, x2 and 0, by three indices that may coincide. */
  function ThreePlaces(s: Bytes, p: nat, x1: nat, x2: nat, size: nat): (r: Bytes)
    requires p + x1 < |s| && p + x2 < |s| && size > 0
    ensures |r| == size
  {
    Or(Or(ByteAt(s, p + x1, x1, size), ByteAt(s, p + x2, x2, size)), Single(s[p], size))
  }

  /** A tail of 1 to 3 bytes. */
  function ThreeBytes(s: Bytes, p: nat, n: nat, size: nat): (r: Bytes)
    requires 1 <= n < 4 <= size && p + n <= |s|
    ensures |r| == size
  {
    ThreePlaces(s, p, (n - 1) / 2 * 2, n / 2, size)
  }

  /** Block i of the range, `size` bytes, continued with zeros beyond the end. */
  function Block(s: Bytes, size: nat, i: nat): (r: Bytes)
    ensures |r| == size
  {
    seq(size, j requires 0 <= j < size => if size * i + j < |s| then s[size * i + j] else 0)
  }

  lemma WholeBlock(s: Bytes, size: nat, i: nat, p: nat)
    requires p == size * i && p + size <= |s|
    ensures s[p..p + size] == Block(s, size, i)
  {
  }

  lemma LastBlock(s: Bytes, size: nat, i: nat, p: nat)
    requires p == size * i && p <= |s| < p + size
    ensures Widened(s[p..], size) == Block(s, size, i)
  {
  }

  /** Reads up to `size` bytes one by one, from byte n on, into a word of zeros. */
  method NextWord(s: Bytes, n: nat, size: nat) returns (v1: Bytes, end: nat, full: bool)
    requires n <= |s| && size > 0
    ensures n <= end <= |s| && if full then end == n + size else end == |s| < n + size
    ensures v1 == Widened(s[n..end], size)
  {
    v1, end := Zeros(size), n;
    var j: nat := 0;
    while j < size && end < |s|
      invariant j <= size && n <= end <= |s| && end == n + j
      invariant v1 == Widened(s[n..end], size)
    {
      OrAppends(s[n..end], s[end], size);
      assert s[n..end] + [s[end]] == s[n..end + 1];
      v1 := Or(v1, ByteAt(s, end, j, size));
      end, j := end + 1, j + 1;
    }
    full := j == size;
  }

  lemma ByteAtByte(s: Bytes, i: nat, k: nat, size: nat, j: nat)
    requires i < |s| && k < size && j < size
    ensures ByteAt(s, i, k, size)[j] == if j == k then s[i] else 0
  {}

  lemma OrOfThree(a: bv8, b: bv8, c: bv8, r: bv8)
    requires (a == 0 || a == r) && (b == 0 || b == r) && (c == 0 || c == r)
    requires a == r || b == r || c == r
    ensures (a | b) | c == r
  {}

  lemma OneByteReachesEachPosition(n: nat, i: nat)
    requires 1 <= n < 4
    ensures (n - 1) / 2 * 2 < n && n / 2 < n
    ensures i < n ==> i == (n - 1) / 2 * 2 || i == n / 2 || i == 0
  {}

  lemma ThreePlacesAt(s: Bytes, p: nat, x1: nat, x2: nat, size: nat, i: nat, r: bv8)
    requires x1 < size && x2 < size && p + x1 < |s| && p + x2 < |s| && i < size
    requires r == if i == 0 || i == x1 || i == x2 then s[p + i] else 0
    ensures ThreePlaces(s, p, x1, x2, size)[i] == r
  {
    ByteAtByte(s, p + x1, x1, size, i);
    ByteAtByte(s, p + x2, x2, size, i);
    OrOfThree(ByteAt(s, p + x1, x1, size)[i], ByteAt(s, p + x2, x2, size)[i], Single(s[p], size)[i], r);
  }

  lemma ThreeBytesAt(s: Bytes, p: nat, n: nat, size: nat, i: nat)
    requires 1 <= n < 4 <= size && p + n <= |s| && i < size
    ensures ThreeBytes(s, p, n, size)[i] == if i < n then s[p + i] else 0
  {
    OneByteReachesEachPosition(n, i);
    ThreePlacesAt(s, p, (n - 1) / 2 * 2, n / 2, size, i, if i < n then s[p + i] else 0);
  }

  lemma ThreeBytesIsTail(s: Bytes, p: nat, n: nat, size: nat)
    requires 1 <= n < 4 <= size && p + n <= |s|
    ensures ThreeBytes(s, p, n, size) == Widened(s[p..p + n], size)
  {
    forall i: nat | i < size ensures ThreeBytes(s, p, n, size)[i] == Widened(s[p..p + n], size)[i] {
      ThreeBytesAt(s, p, n, size, i);
    }
  }
}

/** The 64-bit pair of algorithms, over any words whose exclusive or behaves. */
module HashRange64 {
  import opened ByteWords

  /** What the algorithms need of exclusive or. */
  ghost predicate Swaps<W(!new)>(xor: (W, W) -> W) {
    forall a, b, c :: xor(xor(a, b), c) == xor(xor(a, c), b)
  }

  /** w plus i times q. */
  function Stepped<W>(plus: (W, W) -> W, w: W, q: W, i: nat): W {
    if i == 0 then w else plus(Stepped(plus, w, q, i - 1), q)
  }

  datatype Arithmetic<!W(!new)> = Arithmetic(
    plus: (W, W) -> W,
    xor: (W, W) -> W,
    mulx: (W, W) -> W,
    number: Bytes -> W,
    size: nat -> W,
    q: W,
    k: W)
  {
    ghost predicate Lawful() { Swaps(xor) }

    /** What block i of the zero-padded range contributes: its number, moved by the
        (i+1)-th step from the initial word, multiplied by k. */
    function Term(s: Bytes, w: W, i: nat): W {
      mulx(plus(number(Block(s, 8, i)), Stepped(plus, w, q, i + 1)), k)
    }

    /** The exclusive or of h and the first i terms. */
    function Terms(s: Bytes, w: W, h: W, i: nat): W {
      if i == 0 then h else xor(Terms(s, w, h, i - 1), Term(s, w, i - 1))
    }

    /** It does not matter where in the row a word is added. */
    lemma {:induction false} AddedLater(s: Bytes, w: W, h: W, x: W, i: nat)
      requires Lawful()
      ensures Terms(s, w, xor(h, x), i) == xor(Terms(s, w, h, i), x)
    {
      if i > 0 {
        AddedLater(s, w, h, x, i - 1);
      }
    }

    /** The hash of a range: with the initial word, the length and the terms of all whole
        blocks and of the padded tail in one exclusive or, and a last multiplication. */
    function HashRange(seed: W, s: Bytes): W {
      var w := mulx(plus(seed, q), k);
      var blocks := |s| / 8 + 1;
      mulx(plus(Terms(s, w, xor(w, size(|s|)), blocks), Stepped(plus, w, q, blocks)), k)
    }
  }

  function Plus64(a: bv64, b: bv64): bv64 { a + b }

  function Xor64(a: bv64, b: bv64): bv64 { a ^ b }

  function Size64(n: nat): bv64 { (n % 0x1_0000_0000_0000_0000) as bv64 }

  /** The words of the machine; mulx and the reading of eight bytes as a number stay open. */
  function Machine(mulx: (bv64, bv64) -> bv64, number: Bytes -> bv64): Arithmetic<bv64> {
    Arithmetic(Plus64, Xor64, mulx, number, Size64, 0x9e3779b97f4a7c15, 0xdf442d22ce4859b9)
  }

  lemma BitsSwap(a: bv64, b: bv64, c: bv64, ab: bv64, ac: bv64)
    requires ab == a ^ b && ac == a ^ c
    ensures ab ^ c == ac ^ b
  {}

  lemma WordsSwap(a: bv64, b: bv64, c: bv64, ab: bv64, ac: bv64)
    requires ab == a ^ b && ac == a ^ c
    ensures Xor64(ab, c) == Xor64(ac, b)
  {
    BitsSwap(a, b, c, ab, ac);
  }

  lemma XorSwaps(a: bv64, b: bv64, c: bv64)
    ensures Xor64(Xor64(a, b), c) == Xor64(Xor64(a, c), b)
  {
    var ab, ac := Xor64(a, b), Xor64(a, c);
    WordsSwap(a, b, c, ab, ac);
  }

  lemma Xor64IsLawful()
    ensures Swaps(Xor64)
  {
    forall a, b, c ensures Xor64(Xor64(a, b), c) == Xor64(Xor64(a, c), b) {
      XorSwaps(a, b, c);
    }
  }

  lemma MachineIsLawful(mulx: (bv64, bv64) -> bv64, number: Bytes -> bv64)
    ensures Machine(mulx, number).Lawful()
  {
    Xor64IsLawful();
  }

  method Tail(s: Bytes, p: nat, n: nat) returns (v1: Bytes)
    requires n < 8 && p + n == |s|
    ensures v1 == Widened(s[p..], 8)
  {
    v1 := Zeros(8);
    if n >= 4 {
      v1 := TwoReads(s, p, n);
      TwoReadsIsTail(s, p, n);
    } else if n >= 1 {
      v1 := ThreeBytes(s, p, n, 8);
      ThreeBytesIsTail(s, p, n, 8);
    }
    assert s[p..] == s[p..p + n];
  }

  /** The random-access form: the length first, eight bytes at a time, a tail of
      overlapping reads. */
  method HashBlocks<W(!new)>(m: Arithmetic<W>, seed: W, s: Bytes) returns (r: W)
    ensures r == m.HashRange(seed, s)
  {
    var p, n: nat := 0, |s|;
    var w := m.mulx(m.plus(seed, m.q), m.k);
    var h := m.xor(w, m.size(n));
    ghost var i: nat, w0, h0 := 0, w, h;
    while n >= 8
      invariant p + n == |s| && p == 8 * i
      invariant w == Stepped(m.plus, w0, m.q, i) && h == m.Terms(s, w0, h0, i)
    {
      var v1 := Read64(s, p);
      Read64IsSlice(s, p);
      WholeBlock(s, 8, i, p);
      w := m.plus(w, m.q);
      h := m.xor(h, m.mulx(m.plus(m.number(v1), w), m.k));
      p, n, i := p + 8, n - 8, i + 1;
    }
    var v1 := Tail(s, p, n);
    LastBlock(s, 8, i, p);
    w := m.plus(w, m.q);
    h := m.xor(h, m.mulx(m.plus(m.number(v1), w), m.k));
    r := m.mulx(m.plus(h, w), m.k);
  }

  /** The streaming form: one byte at a time, the length last. */
  method HashStream<W(!new)>(m: Arithmetic<W>, seed: W, s: Bytes) returns (r: W)
    requires m.Lawful()
    ensures r == m.HashRange(seed, s)
  {
    var n: nat := 0;
    var w := m.mulx(m.plus(seed, m.q), m.k);
    var h := w;
    var v1 := Zeros(8);
    var full := true;
    ghost var i: nat, first: nat, w0 := 0, 0, w;
    while full
      invariant first <= n <= |s| && first == 8 * i
      invariant full ==> first == n
      invariant !full ==> n == |s| && n - first < 8 && v1 == Widened(s[first..], 8)
      invariant w == Stepped(m.plus, w0, m.q, i) && h == m.Terms(s, w0, w0, i)
      decreases full, |s| - n
    {
      v1, n, full := NextWord(s, n, 8);
      if full {
        WholeBlock(s, 8, i, first);
        assert v1 == s[first..n];
        w := m.plus(w, m.q);
        h := m.xor(h, m.mulx(m.plus(m.number(v1), w), m.k));
          first, i := n, i + 1;
      } else {
        assert s[first..n] == s[first..];
      }
    }
    LastBlock(s, 8, i, first);
    h := m.xor(h, m.size(n));
    m.AddedLater(s, w0, w0, m.size(n), i);
    w := m.plus(w, m.q);
    h := m.xor(h, m.mulx(m.plus(m.number(v1), w), m.k));
    r := m.mulx(m.plus(h, w), m.k);
  }

  // ----- the place of a block matters -----

  function Sum(a: int, b: int): int { a + b }

  function Square(a: int, b: int): int { a * a }

  function FirstByte(v: Bytes): int {
    if v == [] then 0 else v[0] as int
  }

  /** A lawful machine on whole numbers. */
  const WHOLE_NUMBERS := Arithmetic(Sum, Sum, Square, FirstByte, (n: nat) => n as int, 1, 0)

  /** `size` times one letter, then `size` times another. */
  function Letters(size: nat, a: bv8, b: bv8): Bytes {
    seq(2 * size, i => if i < size then a else b)
  }

  lemma LetterBlocks(size: nat, a: bv8, b: bv8)
    requires size > 0
    ensures FirstByte(Block(Letters(size, a, b), size, 0)) == a as int
    ensures FirstByte(Block(Letters(size, a, b), size, 1)) == b as int
    ensures FirstByte(Block(Letters(size, a, b), size, 2)) == 0
  {
    var s := Letters(size, a, b);
    assert Block(s, size, 0)[0] == a && Block(s, size, 1)[0] == b && Block(s, size, 2)[0] == 0;
  }

  lemma {:induction false} SteppedByOne(w: int, i: nat)
    ensures Stepped(Sum, w, 1, i) == w + i
  {
    if i > 0 {
      SteppedByOne(w, i - 1);
    }
  }

  lemma TermOfLetters(s: Bytes, i: nat)
    ensures WHOLE_NUMBERS.Term(s, 1, i) == Square(FirstByte(Block(s, 8, i)) + i + 2, 0)
  {
    SteppedByOne(1, i + 1);
  }

  lemma HashOfLetters(a: bv8, b: bv8)
    ensures WHOLE_NUMBERS.HashRange(0, Letters(8, a, b))
      == Square(37 + Square(a as int + 2, 0) + Square(b as int + 3, 0), 0)
  {
    var m, s := WHOLE_NUMBERS, Letters(8, a, b);
    LetterBlocks(8, a, b);
    SteppedByOne(1, 3);
    TermOfLetters(s, 0);
    TermOfLetters(s, 1);
    TermOfLetters(s, 2);
    assert m.Terms(s, 1, 17, 1) == 17 + m.Term(s, 1, 0);
    assert m.Terms(s, 1, 17, 2) == m.Terms(s, 1, 17, 1) + m.Term(s, 1, 1);
    assert m.Terms(s, 1, 17, 3) == m.Terms(s, 1, 17, 2) + m.Term(s, 1, 2);
  }

  /** Some lawful machine tells AAAAAAAABBBBBBBB from BBBBBBBBAAAAAAAA. */
  lemma OrderMatters()
    ensures WHOLE_NUMBERS.Lawful()
    ensures WHOLE_NUMBERS.HashRange(0, Letters(8, 65, 66)) != WHOLE_NUMBERS.HashRange(0, Letters(8, 66, 65))
  {
    HashOfLetters(65, 66);
    HashOfLetters(66, 65);
  }
}

/** The 32-bit pair: 32-bit words w, a 64-bit accumulator h, blocks of four bytes. */
module HashRange32 {
  import opened ByteWords
  import opened HashRange64

  datatype Arithmetic32<!W(!new), !D(!new)> = Arithmetic32(
    plus: (W, W) -> W,
    mul32: (W, W) -> D,
    xor: (D, D) -> D,
    number: Bytes -> W,
    size: nat -> D,
    low: D -> W,
    high: D -> W,
    join: (W, W) -> W,
    q: W,
    k: W)
  {
    ghost predicate Lawful() { Swaps(xor) }

    /** What block i of the zero-padded range contributes. */
    function Term(s: Bytes, w: W, i: nat): D {
      mul32(plus(number(Block(s, 4, i)), Stepped(plus, w, q, i + 1)), k)
    }

    /** The exclusive or of h and the first i terms. */
    function Terms(s: Bytes, w: W, h: D, i: nat): D {
      if i == 0 then h else xor(Terms(s, w, h, i - 1), Term(s, w, i - 1))
    }

    lemma {:induction false} AddedLater(s: Bytes, w: W, h: D, x: D, i: nat)
      requires Lawful()
      ensures Terms(s, w, xor(h, x), i) == xor(Terms(s, w, h, i), x)
    {
      if i > 0 {
        AddedLater(s, w, h, x, i - 1);
      }
    }

    /** The hash of a range: the initial product, the length and the terms of all blocks in
        one exclusive or; then the product of its halves, each moved by one more step. */
    function HashRange(seed: W, s: Bytes): W {
      var h := mul32(plus(seed, q), k);
      var blocks := |s| / 4 + 1;
      var all := Terms(s, low(h), xor(h, size(|s|)), blocks);
      var w := Stepped(plus, low(h), q, blocks + 1);
      var r := xor(all, mul32(plus(low(all), w), plus(plus(high(all), w), k)));
      join(low(r), high(r))
    }
  }

  function Plus32(a: bv32, b: bv32): bv32 { a + b }

  function Mul32(a: bv32, b: bv32): bv64 { (a as bv64) * (b as bv64) }

  function Xor32(a: bv32, b: bv32): bv32 { a ^ b }

  function Low(h: bv64): bv32 { (h & 0xFFFFFFFF) as bv32 }

  function High(h: bv64): bv32 { (h >> 32) as bv32 }

  /** The count is a 32-bit size_t, widened to 64 bits. */
  function Size32(n: nat): bv64 { (n % 0x1_0000_0000) as bv64 }

  function Machine32(number: Bytes -> bv32): Arithmetic32<bv32, bv64> {
    Arithmetic32(Plus32, Mul32, Xor64, number, Size32, Low, High, Xor32, 0x9e3779b9, 0xe35e67b1)
  }

  lemma Machine32IsLawful(number: Bytes -> bv32)
    ensures Machine32(number).Lawful()
  {
    Xor64IsLawful();
  }

  method Tail(s: Bytes, p: nat, n: nat) returns (v1: Bytes)
    requires n < 4 && p + n == |s|
    ensures v1 == Widened(s[p..], 4)
  {
    v1 := Zeros(4);
    if n >= 1 {
      v1 := ThreeBytes(s, p, n, 4);
      ThreeBytesIsTail(s, p, n, 4);
    }
    assert s[p..] == s[p..p + n];
  }

  /** The loop over whole blocks, four bytes at a time. */
  method TakeBlocks<W(!new), D(!new)>(m: Arithmetic32<W, D>, s: Bytes, w0: W, h0: D) returns (v1: Bytes, w: W, h: D)
    ensures w == Stepped(m.plus, w0, m.q, |s| / 4) && h == m.Terms(s, w0, h0, |s| / 4)
    ensures v1 == Block(s, 4, |s| / 4)
  {
    var p, n: nat := 0, |s|;
    w, h := w0, h0;
    ghost var i: nat := 0;
    while n >= 4
      invariant p + n == |s| && p == 4 * i
      invariant w == Stepped(m.plus, w0, m.q, i) && h == m.Terms(s, w0, h0, i)
    {
      v1 := Read32(s, p);
      Read32IsSlice(s, p);
      WholeBlock(s, 4, i, p);
      w := m.plus(w, m.q);
      h := m.xor(h, m.mul32(m.plus(m.number(v1), w), m.k));
      p, n, i := p + 4, n - 4, i + 1;
    }
    v1 := Tail(s, p, n);
    LastBlock(s, 4, i, p);
  }

  /** The same for the streaming form, one byte at a time. */
  method StreamBlocks<W(!new), D(!new)>(m: Arithmetic32<W, D>, s: Bytes, w0: W, h0: D)
    returns (v1: Bytes, n: nat, w: W, h: D)
    ensures w == Stepped(m.plus, w0, m.q, |s| / 4) && h == m.Terms(s, w0, h0, |s| / 4)
    ensures v1 == Block(s, 4, |s| / 4) && n == |s|
  {
    n, w, h := 0, w0, h0;
    v1 := Zeros(4);
    var full := true;
    ghost var i: nat, first: nat := 0, 0;
    while full
      invariant first <= n <= |s| && first == 4 * i
      invariant full ==> first == n
      invariant !full ==> n == |s| && n - first < 4 && v1 == Widened(s[first..], 4)
      invariant w == Stepped(m.plus, w0, m.q, i) && h == m.Terms(s, w0, h0, i)
      decreases full, |s| - n
    {
      v1, n, full := NextWord(s, n, 4);
      if full {
        WholeBlock(s, 4, i, first);
        assert v1 == s[first..n];
        w := m.plus(w, m.q);
        h := m.xor(h, m.mul32(m.plus(m.number(v1), w), m.k));
        first, i := n, i + 1;
      } else {
        assert s[first..n] == s[first..];
      }
    }
    LastBlock(s, 4, i, first);
  }

  /** The random-access form. */
  method HashBlocks<W(!new), D(!new)>(m: Arithmetic32<W, D>, seed: W, s: Bytes) returns (r: W)
    ensures r == m.HashRange(seed, s)
  {
    var h := m.mul32(m.plus(seed, m.q), m.k);
    var w := m.low(h);
    h := m.xor(h, m.size(|s|));
    var v1;
    v1, w, h := TakeBlocks(m, s, w, h);
    w := m.plus(w, m.q);
    h := m.xor(h, m.mul32(m.plus(m.number(v1), w), m.k));
    w := m.plus(w, m.q);
    h := m.xor(h, m.mul32(m.plus(m.low(h), w), m.plus(m.plus(m.high(h), w), m.k)));
    r := m.join(m.low(h), m.high(h));
  }

  /** The streaming form. */
  method HashStream<W(!new), D(!new)>(m: Arithmetic32<W, D>, seed: W, s: Bytes) returns (r: W)
    requires m.Lawful()
    ensures r == m.HashRange(seed, s)
  {
    var h := m.mul32(m.plus(seed, m.q), m.k);
    m.AddedLater(s, m.low(h), h, m.size(|s|), |s| / 4);
    var v1, n, w;
    v1, n, w, h := StreamBlocks(m, s, m.low(h), h);
    h := m.xor(h, m.size(n));
    w := m.plus(w, m.q);
    h := m.xor(h, m.mul32(m.plus(m.number(v1), w), m.k));
    w := m.plus(w, m.q);
    h := m.xor(h, m.mul32(m.plus(m.low(h), w), m.plus(m.plus(m.high(h), w), m.k)));
    r := m.join(m.low(h), m.high(h));
  }

  // ----- the place of a block matters -----

  function Same(h: int): int { h }

  function Left(a: int, b: int): int { a }

  /** A lawful machine on whole numbers. */
  const WHOLE_NUMBERS := Arithmetic32(Sum, Square, Sum, FirstByte, (n: nat) => n as int, Same, Same, Left, 1, 0)

  lemma TermOfLetters(s: Bytes, i: nat)
    ensures WHOLE_NUMBERS.Term(s, 1, i) == Square(FirstByte(Block(s, 4, i)) + i + 2, 0)
  {
    SteppedByOne(1, i + 1);
  }

  lemma HashOfLetters(a: bv8, b: bv8)
    ensures var h := 25 + Square(a as int + 2, 0) + Square(b as int + 3, 0);
      WHOLE_NUMBERS.HashRange(0, Letters(4, a, b)) == h + Square(h + 5, 0)
  {
    var m, s := WHOLE_NUMBERS, Letters(4, a, b);
    LetterBlocks(4, a, b);
    SteppedByOne(1, 4);
    TermOfLetters(s, 0);
    TermOfLetters(s, 1);
    TermOfLetters(s, 2);
    assert m.Terms(s, 1, 9, 1) == 9 + m.Term(s, 1, 0);
    assert m.Terms(s, 1, 9, 2) == m.Terms(s, 1, 9, 1) + m.Term(s, 1, 1);
    assert m.Terms(s, 1, 9, 3) == m.Terms(s, 1, 9, 2) + m.Term(s, 1, 2);
  }

  /** The same for the 32-bit pair, with blocks of four bytes. */
  lemma OrderMatters()
    ensures WHOLE_NUMBERS.Lawful()
    ensures WHOLE_NUMBERS.HashRange(0, Letters(4, 65, 66)) != WHOLE_NUMBERS.HashRange(0, Letters(4, 66, 65))
  {
    HashOfLetters(65, 66);
    HashOfLetters(66, 65);
    assert Square(67, 0) + Square(69, 0) == 9250 && Square(68, 0) + Square(68, 0) == 9248;
  }
}
