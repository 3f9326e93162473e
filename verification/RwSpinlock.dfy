/** The reader-writer spinlock: one 32-bit word driven by atomic loads and
    compare-and-swaps, for any number of threads and any schedule. */
module RwSpinlock {
  import opened Counting

  // The word has two flags on top, a writer inside and a writer announced, above a
  // 30-bit count of the readers inside.
  const EXCLUSIVE: nat := 0x8000_0000
  const PENDING: nat := 0x4000_0000
  const READER_MASK: nat := 0x3FFF_FFFF

  predicate ExclusiveBit(w: nat) { w >= 0x8000_0000 }

  predicate PendingBit(w: nat) { (w / 0x4000_0000) % 2 == 1 }

  function ReaderCount(w: nat): nat { w % 0x4000_0000 }

  /** The arithmetic readings above are the mask operations of the source. */
  lemma PendingMask(w: bv32)
    ensures (w & 0x4000_0000 != 0) <==> (w / 0x4000_0000) % 2 == 1
  {
  }

  lemma CountMask(w: bv32)
    ensures w & 0x3FFF_FFFF == w % 0x4000_0000
  {
  }

  lemma PendingOr(w: bv32)
    ensures w & 0x4000_0000 == 0 ==> w | 0x4000_0000 == w + 0x4000_0000
    ensures (w & 0x8000_0000 != 0) <==> w >= 0x8000_0000
  {
  }

  /** Where a thread is. `seen` is the word it loaded. */
  datatype Pc =
    | Idle
    | LoadForShared                // lock_shared, top of the loop
    | SwapForShared(seen: nat)
    | LoadTryShared                // try_lock_shared
    | SwapTryShared(seen: nat)
    | HoldsShared
    | LoadForLock                  // lock, top of the loop
    | SwapForLock(seen: nat)       // about to take the lock
    | SwapForPending(seen: nat)    // about to set the pending bit
    | LoadTryLock                  // try_lock
    | SwapTryLock(seen: nat)
    | HoldsExclusive

  datatype State = State(word: nat, threads: seq<Pc>)

  function Move(s: State, t: nat, pc: Pc): State
    requires t < |s.threads|
  {
    s.(threads := s.threads[t := pc])
  }

  function Swap(s: State, word: nat, t: nat, pc: Pc): State
    requires t < |s.threads|
  {
    State(word, s.threads[t := pc])
  }

  /** One atomic action of thread t. A weak compare-and-swap may fail spuriously. */
  predicate Step(s: State, t: nat, s': State) {
    t < |s.threads| &&
    match s.threads[t]
    case Idle =>
      || s' == Move(s, t, LoadForShared)
      || s' == Move(s, t, LoadTryShared)
      || s' == Move(s, t, LoadForLock)
      || s' == Move(s, t, LoadTryLock)
    case LoadForShared =>
      s' == Move(s, t, if s.word < READER_MASK then SwapForShared(s.word) else LoadForShared)
    case SwapForShared(seen) =>
      || (s.word == seen && s' == Swap(s, seen + 1, t, HoldsShared))
      || s' == Move(s, t, LoadForShared)
    case LoadTryShared =>
      s' == Move(s, t, if s.word >= READER_MASK then Idle else SwapTryShared(s.word))
    case SwapTryShared(seen) =>
      if s.word == seen then s' == Swap(s, seen + 1, t, HoldsShared) else s' == Move(s, t, Idle)
    case HoldsShared =>
      s' == Swap(s, (s.word + 0xFFFF_FFFF) % 0x1_0000_0000, t, Idle)
    case LoadForLock =>
      s' == Move(s, t,
        if ExclusiveBit(s.word) then LoadForLock
        else if ReaderCount(s.word) == 0 then SwapForLock(s.word)
        else if PendingBit(s.word) then LoadForLock
        else SwapForPending(s.word))
    case SwapForLock(seen) =>
      || (s.word == seen && s' == Swap(s, EXCLUSIVE, t, HoldsExclusive))
      || s' == Move(s, t, LoadForLock)
    case SwapForPending(seen) =>
      || (s.word == seen && s' == Swap(s, seen + PENDING, t, LoadForLock))
      || s' == Move(s, t, LoadForLock)
    case LoadTryLock =>
      s' == Move(s, t,
        if ExclusiveBit(s.word) || ReaderCount(s.word) != 0 then Idle else SwapTryLock(s.word))
    case SwapTryLock(seen) =>
      if s.word == seen then s' == Swap(s, EXCLUSIVE, t, HoldsExclusive) else s' == Move(s, t, Idle)
    case HoldsExclusive =>
      s' == Swap(s, 0, t, Idle)
  }

  function IsReader(pc: Pc): int { if pc.HoldsShared? then 1 else 0 }

  function IsWriter(pc: Pc): int { if pc.HoldsExclusive? then 1 else 0 }

  function InLock(pc: Pc): int {
    if pc.LoadForLock? || pc.SwapForLock? || pc.SwapForPending? then 1 else 0
  }

  function Readers(s: State): int { Sum(s.threads, IsReader) }

  function Writers(s: State): int { Sum(s.threads, IsWriter) }

  /** What a thread remembers of the word it loaded. */
  predicate SeenOk(pc: Pc) {
    match pc
    case SwapForShared(seen) => seen < READER_MASK
    case SwapTryShared(seen) => seen < READER_MASK
    case SwapForLock(seen) => seen == 0 || seen == PENDING
    case SwapTryLock(seen) => seen == 0 || seen == PENDING
    case SwapForPending(seen) => 0 < seen < PENDING
    case _ => true
  }

  /** The word is either exactly the exclusive bit, with one writer and no reader, or
      the number of readers with or without the pending bit, and no writer. */
  ghost predicate WordOk(s: State) {
    || (s.word == EXCLUSIVE && Writers(s) == 1 && Readers(s) == 0)
    || (Writers(s) == 0 && 0 <= Readers(s) <= READER_MASK
        && (s.word == Readers(s) || s.word == Readers(s) + PENDING))
  }

  /** The pending bit is never orphaned. */
  ghost predicate PendingOk(s: State) {
    PendingBit(s.word) ==> Sum(s.threads, InLock) >= 1
  }

  ghost predicate Inv(s: State) {
    && WordOk(s)
    && PendingOk(s)
    && forall t :: 0 <= t < |s.threads| ==> SeenOk(s.threads[t])
  }

  /** How the three counts move when thread t moves. */
  lemma CountsMove(s: State, t: nat, s': State)
    requires t < |s.threads| == |s'.threads| && s'.threads == s.threads[t := s'.threads[t]]
    ensures Readers(s') == Readers(s) - IsReader(s.threads[t]) + IsReader(s'.threads[t])
    ensures Writers(s') == Writers(s) - IsWriter(s.threads[t]) + IsWriter(s'.threads[t])
    ensures Sum(s'.threads, InLock) == Sum(s.threads, InLock) - InLock(s.threads[t]) + InLock(s'.threads[t])
    ensures Readers(s) >= IsReader(s.threads[t]) && Writers(s) >= IsWriter(s.threads[t])
    ensures Sum(s.threads, InLock) >= InLock(s.threads[t])
    ensures Readers(s') >= IsReader(s'.threads[t]) && Writers(s') >= IsWriter(s'.threads[t])
    ensures Sum(s'.threads, InLock) >= InLock(s'.threads[t])
  {
    SumUpdate(s.threads, t, s'.threads[t], IsReader);
    SumUpdate(s.threads, t, s'.threads[t], IsWriter);
    SumUpdate(s.threads, t, s'.threads[t], InLock);
    SumNonNegative(s.threads, IsReader);
    SumNonNegative(s.threads, IsWriter);
    SumNonNegative(s.threads, InLock);
    SumNonNegative(s'.threads, IsReader);
    SumNonNegative(s'.threads, IsWriter);
    SumNonNegative(s'.threads, InLock);
  }

  predicate SharedSide(pc: Pc) {
    pc.LoadForShared? || pc.SwapForShared? || pc.LoadTryShared? || pc.SwapTryShared? || pc.HoldsShared?
  }

  lemma SharedStepWord(s: State, t: nat, s': State)
    requires Inv(s) && Step(s, t, s') && SharedSide(s.threads[t])
    ensures WordOk(s') && PendingOk(s')
  {
    assert SeenOk(s.threads[t]);
    CountsMove(s, t, s');
  }

  lemma ExclusiveStepWord(s: State, t: nat, s': State)
    requires Inv(s) && Step(s, t, s') && !SharedSide(s.threads[t]) && s.word != s'.word
    ensures WordOk(s') && PendingOk(s')
  {
    assert SeenOk(s.threads[t]);
    CountsMove(s, t, s');
  }

  lemma QuietStepWord(s: State, t: nat, s': State)
    requires Inv(s) && Step(s, t, s') && !SharedSide(s.threads[t]) && s.word == s'.word
    ensures WordOk(s') && PendingOk(s')
  {
    CountsMove(s, t, s');
  }

  lemma StepWord(s: State, t: nat, s': State)
    requires Inv(s) && Step(s, t, s')
    ensures WordOk(s') && PendingOk(s')
  {
    if SharedSide(s.threads[t]) {
      SharedStepWord(s, t, s');
    } else if s.word == s'.word {
      QuietStepWord(s, t, s');
    } else {
      ExclusiveStepWord(s, t, s');
    }
  }

  lemma StepSeen(s: State, t: nat, s': State)
    requires Inv(s) && Step(s, t, s')
    ensures SeenOk(s'.threads[t])
  {
  }

  lemma StepKeeps(s: State, t: nat, s': State)
    requires Inv(s) && Step(s, t, s')
    ensures Inv(s')
  {
    StepWord(s, t, s');
    StepSeen(s, t, s');
  }

  lemma StepMovesOne(s: State, t: nat, s': State)
    requires Step(s, t, s')
    ensures |s'.threads| == |s.threads| && s'.threads == s.threads[t := s'.threads[t]]
  {
  }

  // ----- runs -----

  ghost predicate Next(s: State, s': State) {
    exists t: nat :: Step(s, t, s')
  }

  ghost predicate StepAt(run: seq<State>, i: nat)
    requires i + 1 < |run|
  {
    Next(run[i], run[i + 1])
  }

  predicate Initial(s: State) {
    s.word == 0 && forall t :: 0 <= t < |s.threads| ==> s.threads[t].Idle?
  }

  ghost predicate IsRun(run: seq<State>) {
    |run| > 0 && Initial(run[0]) && forall i :: 0 <= i < |run| - 1 ==> StepAt(run, i)
  }

  lemma InitialInv(s: State)
    requires Initial(s)
    ensures Inv(s)
  {
    SumConstant(s.threads, IsReader, 0);
    SumConstant(s.threads, IsWriter, 0);
  }

  lemma {:induction false} RunKeeps(run: seq<State>, i: nat)
    requires IsRun(run) && i < |run|
    ensures Inv(run[i])
  {
    if i == 0 {
      InitialInv(run[0]);
    } else {
      RunKeeps(run, i - 1);
      assert StepAt(run, i - 1);
      var t: nat :| Step(run[i - 1], t, run[i]);
      StepKeeps(run[i - 1], t, run[i]);
    }
  }

  /** In every state of every run: the low 30 bits count the readers and never carry;
      the top bit is set exactly when there is a writer, then the word is exactly that
      bit; there is at most one writer, and never a reader beside it. */
  lemma WordMeaning(run: seq<State>, i: nat)
    requires IsRun(run) && i < |run|
    ensures ReaderCount(run[i].word) == Readers(run[i]) <= READER_MASK
    ensures ExclusiveBit(run[i].word) <==> Writers(run[i]) == 1
    ensures Writers(run[i]) == 1 ==> run[i].word == EXCLUSIVE && Readers(run[i]) == 0
    ensures Writers(run[i]) <= 1
    ensures run[i].word < 0x1_0000_0000
  {
    RunKeeps(run, i);
  }

  lemma HoldersExclude(s: State, t: nat, u: nat)
    requires Inv(s) && t < |s.threads| && u < |s.threads| && t != u
    requires s.threads[t].HoldsExclusive?
    ensures !s.threads[u].HoldsExclusive? && !s.threads[u].HoldsShared?
  {
    SumNonNegative(s.threads, IsReader);
    var without := s.threads[t := Idle];
    SumUpdate(s.threads, t, Idle, IsWriter);
    SumNonNegative(without, IsWriter);
    assert without[u] == s.threads[u];
  }

  /** No two threads hold the lock together unless both share it. */
  lemma Exclusion(run: seq<State>, i: nat, t: nat, u: nat)
    requires IsRun(run) && i < |run| && t < |run[i].threads| && u < |run[i].threads| && t != u
    requires run[i].threads[t].HoldsExclusive?
    ensures !run[i].threads[u].HoldsExclusive? && !run[i].threads[u].HoldsShared?
  {
    RunKeeps(run, i);
    HoldersExclude(run[i], t, u);
  }

  predicate Acquires(s: State, s': State) {
    exists t :: 0 <= t < |s.threads| == |s'.threads| && !s.threads[t].HoldsExclusive? && s'.threads[t].HoldsExclusive?
  }

  /** While the pending bit is set, no step but an exclusive acquisition lets a reader in
      or clears the bit. */
  lemma PendingBlocksReaders(s: State, t: nat, s': State)
    requires Inv(s) && Step(s, t, s') && PendingBit(s.word) && !Acquires(s, s')
    ensures PendingBit(s'.word) && Readers(s') <= Readers(s)
  {
    assert SeenOk(s.threads[t]);
    CountsMove(s, t, s');
  }

  /** Writer preference over runs: from the moment the pending bit is set, and until
      some exclusive acquisition, the number of readers never rises. */
  lemma {:induction false} WriterPreference(run: seq<State>, i: nat, j: nat)
    requires IsRun(run) && i <= j < |run| && PendingBit(run[i].word)
    requires forall m :: i <= m < j ==> !Acquires(run[m], run[m + 1])
    ensures PendingBit(run[j].word) && Readers(run[j]) <= Readers(run[i])
    decreases j
  {
    if i < j {
      WriterPreference(run, i, j - 1);
      RunKeeps(run, j - 1);
      assert StepAt(run, j - 1);
      var t: nat :| Step(run[j - 1], t, run[j]);
      assert !Acquires(run[j - 1], run[j - 1 + 1]);
      PendingBlocksReaders(run[j - 1], t, run[j]);
    }
  }

  lemma {:induction false} SomeoneInLock(threads: seq<Pc>)
    requires Sum(threads, InLock) >= 1
    ensures exists t :: 0 <= t < |threads| && InLock(threads[t]) == 1
  {
    if forall t :: 0 <= t < |threads| ==> InLock(threads[t]) != 1 {
      SumConstant(threads, InLock, 0);
    }
  }

  /** Whenever the pending bit is set some thread is still inside `lock`; once the
      readers are gone, that thread's next attempt, if undisturbed, acquires. */
  lemma PendingIsOwned(run: seq<State>, i: nat)
    requires IsRun(run) && i < |run| && PendingBit(run[i].word)
    ensures exists t :: 0 <= t < |run[i].threads| && InLock(run[i].threads[t]) == 1
    ensures Readers(run[i]) == 0 ==> forall t :: 0 <= t < |run[i].threads| && run[i].threads[t].LoadForLock? ==>
      var s := run[i];
      var loaded := Move(s, t, SwapForLock(s.word));
      Step(s, t, loaded) && Step(loaded, t, Swap(loaded, EXCLUSIVE, t, HoldsExclusive))
  {
    RunKeeps(run, i);
    SomeoneInLock(run[i].threads);
  }

  // ----- getting in, being turned away, getting out -----

  datatype Mode = Shared | Exclusive

  function HeldPc(mode: Mode): Pc { if mode.Shared? then HoldsShared else HoldsExclusive }

  /** Inside lock_shared or lock, or just about to call it. */
  predicate Attempting(mode: Mode, pc: Pc) {
    match mode
    case Shared => pc.Idle? || pc.LoadForShared? || pc.SwapForShared?
    case Exclusive => pc.Idle? || pc.LoadForLock? || pc.SwapForLock? || pc.SwapForPending?
  }

  /** Nobody's presence keeps a newcomer out: a reader, no writer inside or announced; a
      writer, nobody inside. */
  ghost predicate Free(s: State, mode: Mode) {
    match mode
    case Shared => Writers(s) == 0 && !PendingBit(s.word) && Readers(s) < READER_MASK
    case Exclusive => Writers(s) == 0 && Readers(s) == 0
  }

  /** The word with one more holder. */
  function Entered(word: nat, mode: Mode): nat { if mode.Shared? then word + 1 else EXCLUSIVE }

  /** Thread t holds the lock, and nothing else has changed but the word. */
  function GotIn(s: State, t: nat, mode: Mode): State
    requires t < |s.threads|
  {
    Swap(s, Entered(s.word, mode), t, HeldPc(mode))
  }

  /** A thread that loads the word finds a free lock free: its swap can succeed, and does
      nothing else but send it back to the load; try_lock_shared and try_lock cannot even
      do that. */
  lemma FreeLockAdmits(s: State, t: nat, s1: State, mode: Mode)
    requires Inv(s) && Step(s, t, s1) && Free(s, mode)
    requires s.threads[t] == if mode.Shared? then LoadForShared else LoadForLock
    ensures Step(s1, t, GotIn(s, t, mode))
    ensures forall s2 :: Step(s1, t, s2) ==> s2 == GotIn(s, t, mode) || s2 == s
  {
    assert s1.threads[t := s.threads[t]] == s.threads;
  }

  lemma FreeLockAdmitsTry(s: State, t: nat, s1: State, mode: Mode)
    requires Inv(s) && Step(s, t, s1) && Free(s, mode)
    requires s.threads[t] == if mode.Shared? then LoadTryShared else LoadTryLock
    ensures forall s2 :: Step(s1, t, s2) <==> s2 == GotIn(s, t, mode)
  {
  }

  /** A lock that is not free keeps newcomers out: the try functions give up, the others
      stay; a writer that finds only readers inside announces itself, and its own swap
      cannot do anything else but fail. */
  lemma TakenLockRefuses(s: State, t: nat, s1: State, mode: Mode)
    requires Inv(s) && Step(s, t, s1) && !Free(s, mode)
    ensures s.threads[t] == (if mode.Shared? then LoadTryShared else LoadTryLock) ==> s1 == Move(s, t, Idle)
    ensures mode.Shared? && s.threads[t].LoadForShared? ==> s1 == s
    ensures mode.Exclusive? && s.threads[t].LoadForLock? ==>
      if Writers(s) == 1 || PendingBit(s.word) then s1 == s else
        && Step(s1, t, s.(word := s.word + PENDING))
        && forall s2 :: Step(s1, t, s2) ==> s2 == s.(word := s.word + PENDING) || s2 == s
  {
    assert s1.threads[t := s.threads[t]] == s.threads;
  }

  /** A swap that comes too late changes nothing but where its thread is. */
  lemma StaleSwapFails(s: State, t: nat, s1: State, seen: nat)
    requires Step(s, t, s1) && seen != s.word
    requires s.threads[t] in {SwapForShared(seen), SwapTryShared(seen), SwapForLock(seen), SwapForPending(seen),
                              SwapTryLock(seen)}
    ensures s1 == Move(s, t,
      if s.threads[t].SwapForShared? then LoadForShared
      else if s.threads[t].SwapTryShared? || s.threads[t].SwapTryLock? then Idle else LoadForLock)
  {
  }

  /** A holder's release is always possible, takes away exactly its own hold, and leaves an
      announced writer announced. */
  lemma HolderLeaves(s: State, t: nat, s1: State)
    requires Inv(s) && t < |s.threads| && (s.threads[t].HoldsShared? || s.threads[t].HoldsExclusive?)
    ensures Step(s, t, s1) <==>
      s1.threads == s.threads[t := Idle] && s1.word == if s.threads[t].HoldsShared? then s.word - 1 else 0
    ensures s.threads[t].HoldsShared? && Step(s, t, s1) ==>
      Readers(s1) == Readers(s) - 1 && (PendingBit(s1.word) <==> PendingBit(s.word))
  {
    CountsMove(s, t, Move(s, t, Idle));
    if s1.threads == s.threads[t := Idle] {
      CountsMove(s, t, s1);
    }
  }

  /** Any of the four calls may begin at any time; whoever has begun always has a step. */
  lemma CallsBegin(s: State, t: nat, pc: Pc)
    requires t < |s.threads| && s.threads[t].Idle?
    ensures Step(s, t, Move(s, t, pc)) <==> pc in {LoadForShared, LoadTryShared, LoadForLock, LoadTryLock}
  {
    assert Move(s, t, pc).threads[t] == pc;
  }

  ghost predicate SoloPath(path: seq<State>, t: nat) {
    |path| > 0 && forall m :: 0 < m < |path| ==> Step(path[m - 1], t, path[m])
  }

  /** From wherever it stands in lock_shared or lock, a thread whose lock is free needs at
      most three own steps, if undisturbed, to hold it. */
  lemma GetsInAlone(s: State, t: nat, mode: Mode) returns (path: seq<State>)
    requires Inv(s) && t < |s.threads| && Attempting(mode, s.threads[t]) && Free(s, mode)
    ensures SoloPath(path, t) && 2 <= |path| <= 4 && path[0] == s && path[|path| - 1] == GotIn(s, t, mode)
    ensures forall m :: 0 <= m < |path| - 1 ==>
      |path[m].threads| == |s.threads| && Attempting(mode, path[m].threads[t])
  {
    assert SeenOk(s.threads[t]);
    var load := if mode.Shared? then LoadForShared else LoadForLock;
    var s1 := Move(s, t, load);
    var s2 := Move(s, t, if mode.Shared? then SwapForShared(s.word) else SwapForLock(s.word));
    if s.threads[t] == load {
      path := [s, s2, GotIn(s, t, mode)];
    } else if s.threads[t] == s2.threads[t] {
      path := [s, GotIn(s, t, mode)];
    } else {
      path := [s, s1, s2, GotIn(s, t, mode)];
    }
  }
}
