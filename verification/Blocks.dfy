/** Splitting an index range into blocks, and the loops submitted block by block. */
module Blocks {
  /** An index type: the `width` integers from `lo` on, wrapping around. */
  datatype IndexType = IndexType(lo: int, width: nat) {
    predicate Holds(x: int) { lo <= x < lo + width }

    /** The conversion to this type. */
    function Cast(x: int): (r: int)
      requires width > 0
      ensures Holds(r)
    {
      lo + (x - lo) % width
    }
  }

  lemma Product(a: int, b: nat)
    ensures a >= 0 ==> a * b >= 0
  {}

  lemma SameRemainder(a: int, b: int, q: int, w: int)
    requires 0 <= a < w && 0 <= b < w && a == b + q * w
    ensures a == b
  {
    Product(q - 1, w);
    Product(-q - 1, w);
    assert (q - 1) * w == q * w - w && (-q - 1) * w == -(q * w) - w;
  }

  lemma CastIsExact(t: IndexType, x: int, y: int, q: int)
    requires t.width > 0 && t.Holds(y) && x == y + q * t.width
    ensures t.Cast(x) == y
  {
    var w := t.width;
    var d := (x - t.lo) / w;
    assert x - t.lo == d * w + (x - t.lo) % w;
    assert (q - d) * w == q * w - d * w;
    SameRemainder((x - t.lo) % w, y - t.lo, q - d, w);
  }

  lemma CastAway(t: IndexType, y: int) returns (q: int)
    requires t.width > 0
    ensures t.Cast(y) == y + q * t.width
  {
    var d := (y - t.lo) / t.width;
    q := -d;
    assert y - t.lo == d * t.width + (y - t.lo) % t.width;
    assert q * t.width == -(d * t.width);
  }

  /** Wrapping the summands does no harm as long as the sum is representable. */
  lemma WrappedSum(t: IndexType, x: int, y: int, z: int)
    requires t.width > 0 && t.Holds(x + y + z)
    ensures t.Cast(x + t.Cast(y) + t.Cast(z)) == x + y + z
  {
    var p := CastAway(t, y);
    var q := CastAway(t, z);
    assert (p + q) * t.width == p * t.width + q * t.width;
    CastIsExact(t, x + t.Cast(y) + t.Cast(z), x + y + z, p + q);
  }

  function Min(a: int, b: int): int { if a < b then a else b }

  /** Where block b starts when `remainder` blocks of size + 1 come before those of `size`. */
  function Offset(size: int, remainder: int, b: int): int { b * size + Min(b, remainder) }

  lemma OffsetStep(size: int, remainder: int, b: int)
    ensures Offset(size, remainder, b + 1) - Offset(size, remainder, b) == size + if b < remainder then 1 else 0
  {
    assert (b + 1) * size == b * size + size;
  }

  lemma {:induction false} OffsetGrows(size: int, remainder: int, b: int, c: int)
    requires size >= 1 && b <= c
    ensures Offset(size, remainder, b) + (c - b) <= Offset(size, remainder, c)
    decreases c - b
  {
    if b < c {
      OffsetStep(size, remainder, b);
      OffsetGrows(size, remainder, b + 1, c);
    }
  }

  class Blocks {
    const index: IndexType
    const first: int
    const last: int
    const numBlocks: int
    const blockSize: int
    const remainder: int

    ghost predicate Valid() {
      && index.Holds(first) && index.Holds(last)
      && 0 <= numBlocks
      && (numBlocks == 0 <==> last <= first)
      && (numBlocks > 0 ==>
            blockSize >= 1 && 0 <= remainder < numBlocks && numBlocks * blockSize + remainder == last - first)
    }

    /** An empty range has no blocks; otherwise as many as asked for, but no more than indices. */
    constructor (index: IndexType, first: int, last: int, wanted: nat)
      requires index.Holds(first) && index.Holds(last)
      requires first < last ==> wanted >= 1
      ensures Valid()
      ensures this.index == index && this.first == first && this.last == last
      ensures numBlocks == if first < last then Min(wanted, last - first) else 0
    {
      this.index, this.first, this.last := index, first, last;
      var n, size, rest := wanted as int, 0, 0;
      if last > first {
        var total := last - first;
        n := Min(n, total);
        QuotientIsPositive(total, n);
        size := total / n;
        rest := total % n;
        if size == 0 {
          size := 1;
          n := if total > 1 then total else 1;
        }
      } else {
        n := 0;
      }
      numBlocks, blockSize, remainder := n, size, rest;
    }

    /** Where block b starts, and block b - 1 ends. */
    ghost function Bound(b: int): int { first + Offset(blockSize, remainder, b) }

    method Start(b: int) returns (start: int)
      requires Valid() && 0 <= b < numBlocks
      ensures start == Bound(b)
    {
      var extra := if b < remainder then b else remainder;
      BoundIsInRange(this, b);
      WrappedSum(index, first, b * blockSize, extra);
      start := index.Cast(first + index.Cast(b * blockSize) + index.Cast(extra));
    }

    method End(b: int) returns (end: int)
      requires Valid() && 0 <= b < numBlocks
      ensures end == Bound(b + 1)
    {
      if b == numBlocks - 1 { end := last; } else { end := Start(b + 1); }
    }
  }

  lemma QuotientIsPositive(total: int, n: int)
    requires 1 <= n <= total
    ensures total / n >= 1 && n * (total / n) + total % n == total
  {}

  lemma BoundIsInRange(r: Blocks, b: int)
    requires r.Valid() && 0 <= b < r.numBlocks
    ensures r.first <= r.Bound(b) < r.last
  {
    OffsetGrows(r.blockSize, r.remainder, 0, b);
    OffsetGrows(r.blockSize, r.remainder, b, r.numBlocks);
    assert Offset(r.blockSize, r.remainder, r.numBlocks) == r.last - r.first;
  }

  /** The blocks start at the first index, end at the last, and none is empty; the first
      `remainder` of them are one index longer than the others. */
  lemma BlocksTile(r: Blocks, b: int)
    requires r.Valid() && 0 <= b < r.numBlocks
    ensures r.Bound(0) == r.first && r.Bound(r.numBlocks) == r.last
    ensures r.first <= r.Bound(b) < r.Bound(b + 1) <= r.last
    ensures r.Bound(b + 1) - r.Bound(b) == r.blockSize + if b < r.remainder then 1 else 0
  {
    BoundIsInRange(r, b);
    OffsetStep(r.blockSize, r.remainder, b);
    OffsetGrows(r.blockSize, r.remainder, b + 1, r.numBlocks);
  }

  /** Every index of the range lies in exactly one block. */
  lemma {:induction false} OneBlockPerIndex(r: Blocks, i: int, n: int) returns (b: int)
    requires r.Valid() && 0 < n <= r.numBlocks && r.first <= i < r.Bound(n)
    ensures 0 <= b < n && r.Bound(b) <= i < r.Bound(b + 1)
    ensures forall c :: 0 <= c < r.numBlocks && c != b ==> !(r.Bound(c) <= i < r.Bound(c + 1))
    decreases n
  {
    BlocksTile(r, n - 1);
    if i < r.Bound(n - 1) {
      b := OneBlockPerIndex(r, i, n - 1);
    } else {
      b := n - 1;
      forall c | 0 <= c < r.numBlocks && c != b ensures !(r.Bound(c) <= i < r.Bound(c + 1)) {
        if c < b {
          OffsetGrows(r.blockSize, r.remainder, c + 1, b);
        } else {
          OffsetGrows(r.blockSize, r.remainder, b + 1, c);
        }
      }
    }
  }

  // ----- loops -----

  /** The indices a block's task runs through, in order. */
  function Range(start: int, end: int): seq<int> {
    if start < end then seq(end - start, i requires 0 <= i => start + i) else []
  }

  lemma RangeConcat(a: int, b: int, c: int)
    requires a <= b <= c
    ensures Range(a, b) + Range(b, c) == Range(a, c)
  {}

  datatype Task = Task(start: int, end: int)

  /** Every index that a queue of block tasks calls the loop with, task by task. */
  function Called(tasks: seq<Task>): seq<int> {
    if tasks == [] then []
    else Called(tasks[..|tasks| - 1]) + Range(tasks[|tasks| - 1].start, tasks[|tasks| - 1].end)
  }

  lemma RangeHasEachOnce(start: int, end: int, i: int)
    ensures multiset(Range(start, end))[i] == if start <= i < end then 1 else 0
    decreases end - start
  {
    if start < end {
      assert Range(start, end) == Range(start, end - 1) + [end - 1];
      RangeHasEachOnce(start, end - 1, i);
    }
  }

  lemma CalledAppend(tasks: seq<Task>, t: Task)
    ensures Called(tasks + [t]) == Called(tasks) + Range(t.start, t.end)
  {
    assert (tasks + [t])[..|tasks|] == tasks;
  }

  method DetermineThreadCount(numThreads: nat, hardware: nat) returns (n: nat)
    ensures n >= 1
    ensures n == if numThreads > 0 then numThreads else if hardware > 0 then hardware else 1
  {
    if numThreads > 0 { return numThreads; }
    if hardware > 0 { return hardware; }
    return 1;
  }

  /** The pool, as far as the loop submitters see it. */
  class Pool {
    var threadCount: nat

    ghost predicate Valid()
      reads this
    {
      threadCount >= 1
    }

    constructor (numThreads: nat, hardware: nat)
      ensures Valid() && (numThreads > 0 ==> threadCount == numThreads)
    {
      var n := DetermineThreadCount(numThreads, hardware);
      threadCount := n;
    }

    /** Submits one task per block, as many blocks as threads unless told otherwise;
        together they call the loop for the whole range in order. */
    method DetachLoop(index: IndexType, first: int, last: int, wanted: nat) returns (tasks: seq<Task>)
      requires Valid() && index.Holds(first) && index.Holds(last)
      ensures Called(tasks) == Range(first, last)
      ensures |tasks| == if first < last then Min(if wanted != 0 then wanted else threadCount, last - first) else 0
      ensures forall b :: 0 <= b < |tasks| ==> tasks[b].start < tasks[b].end
      ensures forall b, c :: 0 <= b < |tasks| && 0 <= c < |tasks| ==>
        (tasks[b].end - tasks[b].start) - (tasks[c].end - tasks[c].start) <= 1
    {
      tasks := [];
      if last > first {
        var blks := new Blocks(index, first, last, if wanted != 0 then wanted else threadCount);
        var blk: nat := 0;
        NoneSubmitted(blks);
        while blk < blks.numBlocks
          invariant blk == |tasks| <= blks.numBlocks
          invariant Submitted(blks, tasks)
        {
          var start := blks.Start(blk);
          var end := blks.End(blk);
          OneMoreSubmitted(blks, tasks, Task(start, end));
          tasks := tasks + [Task(start, end)];
          blk := blk + 1;
        }
        AllSubmitted(blks, tasks);
      }
    }
  }

  /** `tasks` are the tasks of the first blocks. */
  ghost predicate Submitted(r: Blocks, tasks: seq<Task>) {
    && r.Valid()
    && (forall b :: 0 <= b < |tasks| ==> IsBlock(r, b, tasks[b]))
    && Called(tasks) == Range(r.first, r.Bound(|tasks|))
  }

  lemma NoneSubmitted(r: Blocks)
    requires r.Valid() && r.numBlocks > 0
    ensures Submitted(r, [])
  {
    BlocksTile(r, 0);
  }

  lemma OneMoreSubmitted(r: Blocks, tasks: seq<Task>, t: Task)
    requires Submitted(r, tasks) && |tasks| < r.numBlocks
    requires t == Task(r.Bound(|tasks|), r.Bound(|tasks| + 1))
    ensures Submitted(r, tasks + [t])
  {
    BlocksTile(r, |tasks|);
    OneMoreCalled(r.first, r.Bound(|tasks|), tasks, t);
    OneMoreBlock(r, tasks, t);
  }

  lemma OneMoreBlock(r: Blocks, tasks: seq<Task>, t: Task)
    requires forall b :: 0 <= b < |tasks| ==> IsBlock(r, b, tasks[b])
    requires IsBlock(r, |tasks|, t)
    ensures forall b :: 0 <= b < |tasks + [t]| ==> IsBlock(r, b, (tasks + [t])[b])
  {
  }

  lemma OneMoreCalled(first: int, bound: int, tasks: seq<Task>, t: Task)
    requires first <= bound == t.start <= t.end && Called(tasks) == Range(first, bound)
    ensures Called(tasks + [t]) == Range(first, t.end)
  {
    CalledAppend(tasks, t);
    RangeConcat(first, t.start, t.end);
  }

  ghost predicate IsBlock(r: Blocks, b: int, task: Task) {
    r.Valid() && 0 <= b < r.numBlocks && task == Task(r.Bound(b), r.Bound(b + 1))
  }

  lemma AllSubmitted(r: Blocks, tasks: seq<Task>)
    requires Submitted(r, tasks) && |tasks| == r.numBlocks
    ensures Called(tasks) == Range(r.first, r.last)
    ensures forall b :: 0 <= b < |tasks| ==> tasks[b].start < tasks[b].end
    ensures forall b, c :: 0 <= b < |tasks| && 0 <= c < |tasks| ==>
      (tasks[b].end - tasks[b].start) - (tasks[c].end - tasks[c].start) <= 1
  {
    if r.numBlocks > 0 {
      BlocksTile(r, 0);
    }
    forall b | 0 <= b < |tasks|
      ensures tasks[b].end - tasks[b].start == r.blockSize + (if b < r.remainder then 1 else 0)
      ensures tasks[b].start < tasks[b].end
    {
      assert IsBlock(r, b, tasks[b]);
      BlocksTile(r, b);
    }
  }
}
