/** Sums of integer weights over finite sequences, used to count threads and slots. */
module Counting {

  function Sum<T>(s: seq<T>, w: T -> int): int {
    if |s| == 0 then 0 else Sum(s[..|s| - 1], w) + w(s[|s| - 1])
  }

  /** Replacing one entry moves the sum by the difference of the two weights. */
  lemma {:induction false} SumUpdate<T>(s: seq<T>, i: nat, v: T, w: T -> int)
    requires i < |s|
    ensures Sum(s[i := v], w) == Sum(s, w) - w(s[i]) + w(v)
  {
    var last := |s| - 1;
    if i == last {
      assert s[i := v][..last] == s[..last];
    } else {
      assert s[i := v][..last] == s[..last][i := v];
      SumUpdate(s[..last], i, v, w);
    }
  }

  lemma {:induction false} SumLe<T>(s: seq<T>, w: T -> int, w': T -> int)
    requires forall i :: 0 <= i < |s| ==> w(s[i]) <= w'(s[i])
    ensures Sum(s, w) <= Sum(s, w')
  {
    if s != [] {
      SumLe(s[..|s| - 1], w, w');
    }
  }

  /** If one entry weighs strictly less, so does the whole. */
  lemma SumLt<T>(s: seq<T>, i: nat, w: T -> int, w': T -> int)
    requires i < |s| && w(s[i]) < w'(s[i])
    requires forall j :: 0 <= j < |s| ==> w(s[j]) <= w'(s[j])
    ensures Sum(s, w) < Sum(s, w')
    decreases |s|
  {
    var last := |s| - 1;
    if i == last {
      SumLe(s[..last], w, w');
    } else {
      SumLt(s[..last], i, w, w');
    }
  }

  lemma {:induction false} SumAdd<T>(s: seq<T>, u: T -> int, v: T -> int, w: T -> int)
    requires forall i :: 0 <= i < |s| ==> w(s[i]) == u(s[i]) + v(s[i])
    ensures Sum(s, w) == Sum(s, u) + Sum(s, v)
  {
    if s != [] {
      SumAdd(s[..|s| - 1], u, v, w);
    }
  }

  lemma {:induction false} SumConstant<T>(s: seq<T>, w: T -> int, c: int)
    requires forall i :: 0 <= i < |s| ==> w(s[i]) == c
    ensures Sum(s, w) == c * |s|
  {
    if s != [] {
      SumConstant(s[..|s| - 1], w, c);
      assert c * (|s| - 1) + c == c * |s|;
    }
  }

  lemma {:induction false} SumSame<T>(s: seq<T>, r: seq<T>, w: T -> int)
    requires |s| == |r| && forall i :: 0 <= i < |s| ==> w(r[i]) == w(s[i])
    ensures Sum(r, w) == Sum(s, w)
  {
    if s != [] {
      SumSame(s[..|s| - 1], r[..|s| - 1], w);
    }
  }

  lemma {:induction false} SumConcat<T>(s: seq<T>, r: seq<T>, w: T -> int)
    ensures Sum(s + r, w) == Sum(s, w) + Sum(r, w)
  {
    if r == [] {
      assert s + r == s;
    } else {
      var last := |r| - 1;
      assert (s + r)[..|s| + last] == s + r[..last];
      SumConcat(s, r[..last], w);
    }
  }

  /** Taking entry i out takes its weight out. */
  lemma {:induction false} SumRemove<T>(s: seq<T>, i: nat, w: T -> int)
    requires i < |s|
    ensures Sum(s[..i] + s[i + 1..], w) == Sum(s, w) - w(s[i])
  {
    var last := |s| - 1;
    var rest := s[..i] + s[i + 1..];
    if i == last {
      assert rest == s[..last];
    } else {
      assert rest[..last - 1] == s[..last][..i] + s[..last][i + 1..];
      assert rest[last - 1] == s[last];
      SumRemove(s[..last], i, w);
    }
  }

  lemma {:induction false} SumNonNegative<T>(s: seq<T>, w: T -> int)
    requires forall i :: 0 <= i < |s| ==> w(s[i]) >= 0
    ensures Sum(s, w) >= 0
    ensures forall i :: 0 <= i < |s| ==> Sum(s, w) >= w(s[i])
  {
    if s != [] {
      SumNonNegative(s[..|s| - 1], w);
    }
  }
}
