/** Power-of-two group arrays and the quadratic prober that walks them. */
module Probing {

  function Pow2(n: nat): (p: nat)
    ensures p > 0
  {
    if n == 0 then 1 else 2 * Pow2(n - 1)
  }

  /** The bitwise and of two numbers, from their lowest bits up. */
  function And(x: nat, y: nat): (r: nat)
    ensures r <= x && r <= y
  {
    if x == 0 || y == 0 then 0 else 2 * And(x / 2, y / 2) + if x % 2 == 1 && y % 2 == 1 then 1 else 0
  }

  /** x masked with `groups - 1`. */
  function Masked(x: nat, groups: nat): (r: nat)
    requires groups > 0
    ensures r < groups
  {
    And(x, groups - 1)
  }

  /** For a power of two that is the remainder. */
  lemma {:induction false} MaskedIsRemainder(x: nat, n: nat)
    ensures Masked(x, Pow2(n)) == x % Pow2(n)
  {
    if n > 0 {
      MaskedIsRemainder(x / 2, n - 1);
      MaskDoubles(x, Pow2(n - 1), Pow2(n));
    }
  }

  lemma MaskDoubles(x: nat, half: nat, groups: nat)
    requires half > 0 && groups == 2 * half
    requires Masked(x / 2, half) == (x / 2) % half
    ensures Masked(x, groups) == x % groups
  {
    HalvedMask(x, half);
    HalvedRemainder(x, half);
  }

  lemma HalvedMask(x: nat, m: nat)
    requires m > 0
    ensures And(x, 2 * m - 1) == 2 * And(x / 2, m - 1) + x % 2
  {
    assert (2 * m - 1) / 2 == m - 1 && (2 * m - 1) % 2 == 1;
  }

  lemma HalvedRemainder(x: nat, m: nat)
    requires m > 0
    ensures x % (2 * m) == 2 * ((x / 2) % m) + x % 2
  {
    var q, r := (x / 2) / m, (x / 2) % m;
    TwiceOut(q, m);
    RemainderIsUnique(x, 2 * m, q, 2 * r + x % 2);
  }

  lemma MultipleSize(d: int, m: nat)
    ensures d >= 1 ==> d * m >= m
    ensures d <= -1 ==> d * m + m <= 0
  {
  }

  lemma RemainderIsUnique(x: nat, m: nat, q: int, r: nat)
    requires r < m && x == q * m + r
    ensures x % m == r
  {
    var d := x / m - q;
    assert d * m == r - x % m by {
      assert (x / m) * m == x - x % m;
      assert d * m == (x / m) * m - q * m;
    }
    MultipleSize(d, m);
  }

  /** The position of the prober that started at `home`, after `i` calls of `next`
      on an array of `groups` groups. */
  function Probe(home: nat, i: nat, groups: nat): (p: nat)
    requires home < groups
    ensures p < groups
  {
    if i == 0 then home else Masked(Probe(home, i - 1, groups) + i, groups)
  }

  function Triangle(i: nat): nat {
    if i == 0 then 0 else Triangle(i - 1) + i
  }

  lemma {:induction false} TriangleDifference(i: nat, j: nat)
    requires i <= j
    ensures 2 * (Triangle(j) - Triangle(i)) == (j - i) * (j + i + 1)
  {
    if i < j {
      TriangleDifference(i, j - 1);
      assert (j - i) * (j + i + 1) == (j - 1 - i) * (j + i) + 2 * j by {
        assert (j - i) * (j + i + 1) == (j - 1 - i) * (j + i) + (j - 1 - i) + (j + i + 1);
      }
    }
  }

  /** x and y differ by q times m. */
  ghost predicate Differ(x: int, y: int, q: int, m: int) {
    x - y == q * m
  }

  lemma MaskedDiffers(x: nat, n: nat) returns (q: nat)
    ensures Differ(x, Masked(x, Pow2(n)), q, Pow2(n))
  {
    MaskedIsRemainder(x, n);
    q := x / Pow2(n);
  }

  lemma DifferSum(x: int, y: int, z: int, p: int, q: int, m: int)
    requires Differ(x, y, p, m) && Differ(y, z, q, m)
    ensures Differ(x, z, p + q, m)
  {
    assert (p + q) * m == p * m + q * m;
  }

  /** Up to a multiple of the array size, the prober adds triangular numbers. */
  lemma {:induction false} ProbeIsTriangular(home: nat, i: nat, n: nat) returns (q: int)
    requires home < Pow2(n)
    ensures Differ(home + Triangle(i), Probe(home, i, Pow2(n)), q, Pow2(n))
  {
    if i == 0 {
      q := 0;
    } else {
      var p := Probe(home, i - 1, Pow2(n));
      var q' := ProbeIsTriangular(home, i - 1, n);
      var r := MaskedDiffers(p + i, n);
      assert Differ(home + Triangle(i), p + i, q', Pow2(n));
      DifferSum(home + Triangle(i), p + i, Masked(p + i, Pow2(n)), q', r, Pow2(n));
      q := q' + r;
    }
  }

  lemma OddTimes(k: int, b: int)
    ensures (2 * k + 1) * b == 2 * (k * b) + b
  {
  }

  lemma TwiceOut(a: int, c: int)
    ensures a * (2 * c) == 2 * (a * c)
  {
  }

  /** Halving the even cofactor of an odd number. */
  lemma HalveCofactor(a: nat, b: nat, q: int, half: nat)
    requires a % 2 == 1 && a * b == q * (2 * half)
    ensures b % 2 == 0 && a * (b / 2) == q * half
  {
    TwiceOut(q, half);
    OddTimes(a / 2, b);
    assert b % 2 == 0;
    TwiceOut(a, b / 2);
  }

  /** An odd factor contributes no power of two. */
  lemma {:induction false} OddFactor(a: nat, b: nat, m: nat, q: int)
    requires a % 2 == 1 && a * b == q * Pow2(m)
    ensures exists r: int :: b == r * Pow2(m)
  {
    if m == 0 {
      assert b == b * Pow2(0);
    } else {
      HalveCofactor(a, b, q, Pow2(m - 1));
      OddFactor(a, b / 2, m - 1, q);
      var r: int :| b / 2 == r * Pow2(m - 1);
      TwiceOut(r, Pow2(m - 1));
      assert b == r * Pow2(m);
    }
  }

  lemma NoMultipleBelow(b: nat, r: int, p: nat)
    requires 0 < b < p
    ensures b != r * p
  {
    if r <= 0 {
      assert r * p <= 0;
    } else {
      assert r * p >= p by {
        assert (r - 1) * p >= 0;
        assert r * p == (r - 1) * p + p;
      }
    }
  }

  lemma DifferDouble(x: int, y: int, p: int, q: int, r: int, m: int)
    requires Differ(x, p, q, m) && Differ(y, p, r, m)
    ensures 2 * (y - x) == (r - q) * (2 * m)
  {
    assert (r - q) * m == r * m - q * m;
  }

  lemma MeetingProbesDivide(home: nat, i: nat, j: nat, n: nat) returns (q: int)
    requires home < Pow2(n) && i < j
    requires Probe(home, i, Pow2(n)) == Probe(home, j, Pow2(n))
    ensures (j - i) * (j + i + 1) == q * Pow2(n + 1)
  {
    var qi := ProbeIsTriangular(home, i, n);
    var qj := ProbeIsTriangular(home, j, n);
    TriangleDifference(i, j);
    var p := Probe(home, i, Pow2(n));
    DifferDouble(home + Triangle(i), home + Triangle(j), p, qi, qj, Pow2(n));
    q := qj - qi;
  }

  lemma OneFactorOfTwo(i: nat, j: nat, n: nat, q: int)
    requires i < j < Pow2(n)
    ensures (j - i) * (j + i + 1) != q * Pow2(n + 1)
  {
    assert Pow2(n + 1) == 2 * Pow2(n);
    assert (j - i) + (j + i + 1) == 2 * j + 1;
    OneFactorTooSmall(j - i, j + i + 1, n + 1, q);
  }

  /** No two of the first 2^n probes meet in the same group. */
  lemma ProbeInjective(home: nat, i: nat, j: nat, n: nat)
    requires home < Pow2(n)
    requires i < j < Pow2(n)
    ensures Probe(home, i, Pow2(n)) != Probe(home, j, Pow2(n))
  {
    if Probe(home, i, Pow2(n)) == Probe(home, j, Pow2(n)) {
      var q := MeetingProbesDivide(home, i, j, n);
      OneFactorOfTwo(i, j, n, q);
    }
  }

  lemma OneFactorTooSmall(a: nat, b: nat, m: nat, q: int)
    requires 0 < a < Pow2(m) && 0 < b < Pow2(m) && (a + b) % 2 == 1
    ensures a * b != q * Pow2(m)
  {
    if a * b == q * Pow2(m) {
      if a % 2 == 1 {
        OddFactor(a, b, m, q);
        var r: int :| b == r * Pow2(m);
        NoMultipleBelow(b, r, Pow2(m));
      } else {
        OddFactor(b, a, m, q);
        var r: int :| a == r * Pow2(m);
        NoMultipleBelow(a, r, Pow2(m));
      }
    }
  }

  lemma RoundsDiffer(i: nat, g: nat)
    ensures Triangle(i + 2 * g) - Triangle(i) == (2 * i + 2 * g + 1) * g
  {
    TriangleDifference(i, i + 2 * g);
    assert (2 * g) * (2 * i + 2 * g + 1) == 2 * ((2 * i + 2 * g + 1) * g);
  }

  lemma CloseMultiples(x: nat, y: nat, d: int, m: nat)
    requires x < m && y < m && x - y == d * m
    ensures x == y
  {
    MultipleSize(d, m);
  }

  /** A prober that is not stopped goes round: every second round is the same. */
  lemma ProbeGoesRound(home: nat, i: nat, n: nat)
    requires home < Pow2(n)
    ensures Probe(home, i + 2 * Pow2(n), Pow2(n)) == Probe(home, i, Pow2(n))
  {
    var g, j := Pow2(n), i + 2 * Pow2(n);
    var p := ProbeIsTriangular(home, i, n);
    var q := ProbeIsTriangular(home, j, n);
    RoundsDiffer(i, g);
    assert (2 * i + 2 * g + 1 + p - q) * g == (2 * i + 2 * g + 1) * g + p * g - q * g;
    CloseMultiples(Probe(home, j, g), Probe(home, i, g), 2 * i + 2 * g + 1 + p - q, g);
  }

  function Path(home: nat, n: nat, groups: nat): (s: seq<nat>)
    requires home < groups
    ensures |s| == n && forall i :: 0 <= i < n ==> s[i] == Probe(home, i, groups)
  {
    if n == 0 then [] else Path(home, n - 1, groups) + [Probe(home, n - 1, groups)]
  }

  function Below(n: nat): (s: set<nat>)
    ensures |s| == n && forall x: nat :: x in s <==> x < n
  {
    if n == 0 then {} else Below(n - 1) + {n - 1}
  }

  function Members(s: seq<nat>): (r: set<nat>)
    requires forall i, j :: 0 <= i < j < |s| ==> s[i] != s[j]
    ensures |r| == |s| && forall x :: x in r <==> x in s
  {
    if s == [] then {} else
      var init := s[..|s| - 1];
      assert forall x :: x in s <==> x in init || x == s[|s| - 1];
      Members(init) + {s[|s| - 1]}
  }

  lemma {:induction false} SubsetSize(a: set<nat>, b: set<nat>)
    requires a <= b
    ensures |a| <= |b|
  {
    if a != {} {
      var x :| x in a;
      SubsetSize(a - {x}, b - {x});
    }
  }

  /** A sequence of `n` distinct numbers below `n` misses none of them. */
  lemma DistinctCoversAll(s: seq<nat>, n: nat, v: nat)
    requires |s| == n && v < n
    requires forall i :: 0 <= i < n ==> s[i] < n
    requires forall i, j :: 0 <= i < j < n ==> s[i] != s[j]
    ensures v in s
  {
    if v !in s {
      SubsetSize(Members(s), Below(n) - {v});
    }
  }

  /** The first 2^n probes visit every group. */
  lemma ProbeSurjective(home: nat, n: nat, group: nat)
    requires home < Pow2(n) && group < Pow2(n)
    ensures exists i: nat :: i < Pow2(n) && Probe(home, i, Pow2(n)) == group
  {
    var g := Pow2(n);
    var path := Path(home, g, g);
    forall i, j | 0 <= i < j < g ensures path[i] != path[j] {
      ProbeInjective(home, i, j, n);
    }
    DistinctCoversAll(path, g, group);
    var i: nat :| i < g && path[i] == group;
    assert Probe(home, i, g) == group;
  }

  /** The one probe, among the first 2^n, that reaches `group`. */
  ghost function IndexOf(home: nat, n: nat, group: nat): (i: nat)
    requires home < Pow2(n) && group < Pow2(n)
    ensures i < Pow2(n) && Probe(home, i, Pow2(n)) == group
  {
    ProbeSurjective(home, n, group);
    var i: nat :| i < Pow2(n) && Probe(home, i, Pow2(n)) == group;
    i
  }

  lemma IndexOfIsFirst(home: nat, n: nat, i: nat)
    requires home < Pow2(n)
    ensures IndexOf(home, n, Probe(home, i, Pow2(n))) <= i
    ensures i < Pow2(n) ==> IndexOf(home, n, Probe(home, i, Pow2(n))) == i
  {
    var j := IndexOf(home, n, Probe(home, i, Pow2(n)));
    if i < Pow2(n) && i != j {
      ProbeInjective(home, if i < j then i else j, if i < j then j else i, n);
    }
  }
}
