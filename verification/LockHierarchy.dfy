/** The locks of the concurrent tables together: 128 container spinlocks per table, one
    spinlock per group, and the order in which operations take them. */
module LockHierarchy {
  import opened Counting
  import R = RwSpinlock

  const MUTEXES: nat := 128

  /** A container-level access. Tables are numbered by the address of their multimutex;
      `id` is the thread's own slot, assigned once from a running counter. */
  datatype Access =
    | SharedAccess(table: nat, id: nat)
    | ExclusiveAccess(table: nat)
    | ExclusiveBiaccess(x: nat, y: nat)
  {
    predicate Fits(tables: nat) {
      match this
      case SharedAccess(table, id) => table < tables && id < MUTEXES
      case ExclusiveAccess(table) => table < tables
      case ExclusiveBiaccess(x, y) => x < tables && y < tables
    }

    function Mode(): R.Mode { if SharedAccess? then R.Shared else R.Exclusive }

    /** The container spinlocks it takes, in the order in which it takes them. */
    function Order(): seq<nat> {
      match this
      case SharedAccess(table, id) => [MUTEXES * table + id]
      case ExclusiveAccess(table) => Multimutex(table)
      case ExclusiveBiaccess(x, y) =>
        var first := if x < y then x else y;
        var second := if x < y then y else x;
        if x == y then Multimutex(first) else Multimutex(first) + Multimutex(second)
    }
  }

  function Multimutex(table: nat): seq<nat> { seq(MUTEXES, n requires 0 <= n => MUTEXES * table + n) }

  /** How far an operation has come; k container spinlocks are held while taking and leaving. */
  datatype Position =
    | Taking(k: nat)
    | Within
    | TakingGroup(lock: nat, mode: R.Mode)
    | InGroup(lock: nat, mode: R.Mode)
    | Leaving(k: nat)

  datatype Program = Outside | Section(access: Access, pos: Position)

  /** Every spinlock with its own word and thread states; those past the container
      spinlocks of all tables are the group spinlocks. */
  datatype State = State(tables: nat, locks: seq<R.State>, programs: seq<Program>)

  /** Thread t performs one atomic action on spinlock `lock`; all others stay. */
  predicate Operate(s: State, t: nat, lock: nat, locks': seq<R.State>) {
    && lock < |s.locks| == |locks'|
    && locks' == s.locks[lock := locks'[lock]]
    && R.Step(s.locks[lock], t, locks'[lock])
    && t < |locks'[lock].threads|
  }

  function PcAt(locks: seq<R.State>, lock: nat, t: nat): R.Pc
    requires lock < |locks| && t < |locks[lock].threads|
  {
    locks[lock].threads[t]
  }

  /** Works on taking a spinlock, and goes on to `next` once it is held. */
  predicate Acquire(s: State, t: nat, lock: nat, mode: R.Mode, next: Program, s': State)
    requires t < |s.programs|
  {
    && Operate(s, t, lock, s'.locks)
    && var pc := PcAt(s'.locks, lock, t);
      && (pc == R.HeldPc(mode) || R.Attempting(mode, pc))
      && s' == State(s.tables, s'.locks, if pc == R.HeldPc(mode) then s.programs[t := next] else s.programs)
  }

  predicate Release(s: State, t: nat, lock: nat, next: Program, s': State)
    requires t < |s.programs|
  {
    && Operate(s, t, lock, s'.locks)
    && PcAt(s'.locks, lock, t).Idle?
    && s' == State(s.tables, s'.locks, s.programs[t := next])
  }

  predicate Moves(s: State, t: nat, next: Program, s': State)
    requires t < |s.programs|
  {
    s' == s.(programs := s.programs[t := next])
  }

  /** One atomic action of thread t. */
  predicate Step(s: State, t: nat, s': State) {
    t < |s.programs| &&
    match s.programs[t]
    case Outside =>
      && s'.programs != [] && t < |s'.programs| && s'.programs[t].Section?
      && s'.programs[t].access.Fits(s.tables)
      && Moves(s, t, Section(s'.programs[t].access, Taking(0)), s')
    case Section(a, Taking(k)) =>
      && k < |a.Order()|
      && Acquire(s, t, a.Order()[k], a.Mode(),
           Section(a, if k + 1 == |a.Order()| then Within else Taking(k + 1)), s')
    case Section(a, Within) =>
      || Moves(s, t, Section(a, Leaving(|a.Order()|)), s')
      || (&& t < |s'.programs| && s'.programs[t].Section? && s'.programs[t].pos.TakingGroup?
          && MUTEXES * s.tables <= s'.programs[t].pos.lock < |s.locks|
          && Moves(s, t, Section(a, s'.programs[t].pos), s'))
    case Section(a, TakingGroup(lock, mode)) =>
      Acquire(s, t, lock, mode, Section(a, InGroup(lock, mode)), s')
    case Section(a, InGroup(lock, mode)) =>
      Release(s, t, lock, Section(a, Within), s')
    case Section(a, Leaving(k)) =>
      && 0 < k <= |a.Order()|
      && Release(s, t, a.Order()[k - 1], if k == 1 then Outside else Section(a, Leaving(k - 1)), s')
  }

  // ----- what a program holds and wants -----

  function Taken(p: Program): nat {
    match p
    case Outside => 0
    case Section(a, Taking(k)) => k
    case Section(a, Leaving(k)) => k
    case Section(a, _) => |a.Order()|
  }

  predicate HoldsContainer(p: Program, lock: nat) {
    p.Section? && Taken(p) <= |p.access.Order()| && lock in p.access.Order()[..Taken(p)]
  }

  predicate HoldsGroup(p: Program, lock: nat) {
    p.Section? && p.pos.InGroup? && p.pos.lock == lock
  }

  predicate Holds(p: Program, lock: nat) { HoldsContainer(p, lock) || HoldsGroup(p, lock) }

  predicate Waiting(p: Program) {
    p.Section? && ((p.pos.Taking? && p.pos.k < |p.access.Order()|) || p.pos.TakingGroup?)
  }

  function Wanted(p: Program): nat
    requires Waiting(p)
  {
    if p.pos.Taking? then p.access.Order()[p.pos.k] else p.pos.lock
  }

  function WantedMode(p: Program): R.Mode
    requires Waiting(p)
  {
    if p.pos.Taking? then p.access.Mode() else p.pos.mode
  }

  /** What thread state a program implies at a spinlock. */
  predicate PcFits(p: Program, lock: nat, pc: R.Pc) {
    if HoldsContainer(p, lock) then pc == R.HeldPc(p.access.Mode())
    else if HoldsGroup(p, lock) then pc == R.HeldPc(p.pos.mode)
    else if Waiting(p) && Wanted(p) == lock then R.Attempting(WantedMode(p), pc)
    else pc.Idle?
  }

  predicate Legal(s: State, p: Program) {
    p.Section? ==>
      && p.access.Fits(s.tables)
      && Taken(p) <= |p.access.Order()|
      && (p.pos.Taking? ==> p.pos.k < |p.access.Order()|)
      && (p.pos.Leaving? ==> p.pos.k > 0)
      && (p.pos.TakingGroup? || p.pos.InGroup? ==> MUTEXES * s.tables <= p.pos.lock < |s.locks|)
  }

  ghost predicate Inv(s: State) {
    && MUTEXES * s.tables <= |s.locks|
    && (forall l :: 0 <= l < |s.locks| ==> R.Inv(s.locks[l]) && |s.locks[l].threads| == |s.programs|)
    && (forall t :: 0 <= t < |s.programs| ==> Legal(s, s.programs[t]))
    && (forall l, t :: 0 <= l < |s.locks| && 0 <= t < |s.programs| ==> PcFits(s.programs[t], l, PcAt(s.locks, l, t)))
  }

  // ----- ascending order -----

  ghost predicate Ascending(o: seq<nat>) {
    forall i, j :: 0 <= i < j < |o| ==> o[i] < o[j]
  }

  /** Every access takes its spinlocks in ascending order, within the container range. */
  lemma OrderAscends(a: Access, tables: nat)
    requires a.Fits(tables)
    ensures Ascending(a.Order()) && |a.Order()| > 0
    ensures forall l :: l in a.Order() ==> 0 <= l < MUTEXES * tables
  {
    if a.SharedAccess? {
      InRange(a.table, a.id, tables);
    } else if a.ExclusiveAccess? {
      MultimutexAscends(a.table, tables);
    } else {
      MultimutexAscends(a.x, tables);
      MultimutexAscends(a.y, tables);
    }
  }

  lemma InRange(table: nat, n: nat, tables: nat)
    requires table < tables && n < MUTEXES
    ensures MUTEXES * table + n < MUTEXES * tables
  {}

  lemma MultimutexAscends(table: nat, tables: nat)
    requires table < tables
    ensures Ascending(Multimutex(table)) && |Multimutex(table)| == MUTEXES
    ensures forall l :: l in Multimutex(table) <==> MUTEXES * table <= l < MUTEXES * (table + 1)
    ensures forall l :: l in Multimutex(table) ==> l < MUTEXES * tables
  {
    forall l | MUTEXES * table <= l < MUTEXES * (table + 1) ensures l in Multimutex(table) {
      assert Multimutex(table)[l - MUTEXES * table] == l;
    }
  }

  // ----- every step keeps the invariant -----

  lemma OperateKeeps(s: State, t: nat, lock: nat, locks': seq<R.State>)
    requires Inv(s) && t < |s.programs| && Operate(s, t, lock, locks')
    ensures forall l :: 0 <= l < |s.locks| ==> R.Inv(locks'[l]) && |locks'[l].threads| == |s.programs|
    ensures forall l, u :: 0 <= l < |s.locks| && 0 <= u < |s.programs| && (l != lock || u != t) ==>
      PcAt(locks', l, u) == PcAt(s.locks, l, u)
  {
    R.StepKeeps(s.locks[lock], t, locks'[lock]);
    R.StepMovesOne(s.locks[lock], t, locks'[lock]);
  }

  /** Program q fits every spinlock but `lock` that p fits. */
  ghost predicate SameElsewhere(p: Program, q: Program, lock: nat) {
    forall l: nat, pc :: l != lock && PcFits(p, l, pc) ==> PcFits(q, l, pc)
  }

  lemma ProgramMoves(s: State, t: nat, lock: nat, next: Program, s': State)
    requires Inv(s) && t < |s.programs| && Operate(s, t, lock, s'.locks)
    requires s' == State(s.tables, s'.locks, s.programs[t := next])
    requires Legal(s, next) && SameElsewhere(s.programs[t], next, lock)
    requires PcFits(next, lock, PcAt(s'.locks, lock, t))
    ensures Inv(s')
  {
    OperateKeeps(s, t, lock, s'.locks);
    forall l, u | 0 <= l < |s'.locks| && 0 <= u < |s'.programs|
      ensures PcFits(s'.programs[u], l, PcAt(s'.locks, l, u))
    {
      assert PcFits(s.programs[u], l, PcAt(s.locks, l, u));
    }
    forall u | 0 <= u < |s'.programs| ensures Legal(s', s'.programs[u]) {
      assert Legal(s, s.programs[u]);
    }
  }

  lemma AcquireKeeps(s: State, t: nat, lock: nat, mode: R.Mode, next: Program, s': State)
    requires Inv(s) && t < |s.programs| && Acquire(s, t, lock, mode, next, s')
    requires var p := s.programs[t]; Waiting(p) && Wanted(p) == lock && WantedMode(p) == mode && !Holds(p, lock)
    requires Legal(s, next) && SameElsewhere(s.programs[t], next, lock) && PcFits(next, lock, R.HeldPc(mode))
    ensures Inv(s')
  {
    var pc := PcAt(s'.locks, lock, t);
    if pc == R.HeldPc(mode) {
      ProgramMoves(s, t, lock, next, s');
    } else {
      assert s'.programs == s.programs[t := s.programs[t]];
      ProgramMoves(s, t, lock, s.programs[t], s');
    }
  }

  lemma OneMoreTaken(o: seq<nat>, k: nat, l: nat)
    requires Ascending(o) && k < |o|
    ensures l in o[..k + 1] <==> l in o[..k] || l == o[k]
    ensures o[k] !in o[..k]
  {
    assert o[..k + 1] == o[..k] + [o[k]];
  }

  lemma TakingStepKeeps(s: State, t: nat, s': State)
    requires Inv(s) && Step(s, t, s')
    requires s.programs[t].Section? && s.programs[t].pos.Taking?
    ensures Inv(s')
  {
    var p := s.programs[t];
    assert Legal(s, p);
    var a, k := p.access, p.pos.k;
    OrderAscends(a, s.tables);
    var next := Section(a, if k + 1 == |a.Order()| then Within else Taking(k + 1));
    assert Taken(next) == k + 1;
    forall l: nat ensures HoldsContainer(next, l) <==> HoldsContainer(p, l) || l == a.Order()[k] {
      OneMoreTaken(a.Order(), k, l);
    }
    OneMoreTaken(a.Order(), k, 0);
    NextWantsLater(a, k, next);
    AcquireKeeps(s, t, a.Order()[k], a.Mode(), next, s');
  }

  lemma NextWantsLater(a: Access, k: nat, next: Program)
    requires Ascending(a.Order()) && k < |a.Order()|
    requires next == Section(a, if k + 1 == |a.Order()| then Within else Taking(k + 1))
    requires forall l: nat :: HoldsContainer(next, l) <==> HoldsContainer(Section(a, Taking(k)), l) || l == a.Order()[k]
    ensures SameElsewhere(Section(a, Taking(k)), next, a.Order()[k])
  {
    forall l: nat, pc | l != a.Order()[k] && PcFits(Section(a, Taking(k)), l, pc) ensures PcFits(next, l, pc) {
      if !HoldsContainer(next, l) {
        assert pc.Idle?;
      }
    }
  }

  lemma LeavingStepKeeps(s: State, t: nat, s': State)
    requires Inv(s) && Step(s, t, s')
    requires s.programs[t].Section? && s.programs[t].pos.Leaving?
    ensures Inv(s')
  {
    var p := s.programs[t];
    assert Legal(s, p);
    var a, k := p.access, p.pos.k;
    OrderAscends(a, s.tables);
    var next := if k == 1 then Outside else Section(a, Leaving(k - 1));
    var lock := a.Order()[k - 1];
    forall l: nat ensures HoldsContainer(p, l) <==> HoldsContainer(next, l) || l == lock
      ensures !HoldsContainer(next, lock)
    {
      OneMoreTaken(a.Order(), k - 1, l);
    }
    ProgramMoves(s, t, lock, next, s');
  }

  lemma GroupStepKeeps(s: State, t: nat, s': State)
    requires Inv(s) && Step(s, t, s')
    requires s.programs[t].Section? && (s.programs[t].pos.TakingGroup? || s.programs[t].pos.InGroup?)
    ensures Inv(s')
  {
    var p := s.programs[t];
    assert Legal(s, p);
    var a, lock := p.access, p.pos.lock;
    OrderAscends(a, s.tables);
    assert a.Order()[..|a.Order()|] == a.Order();
    assert lock !in a.Order();
    if p.pos.TakingGroup? {
      AcquireKeeps(s, t, lock, p.pos.mode, Section(a, InGroup(lock, p.pos.mode)), s');
    } else {
      ProgramMoves(s, t, lock, Section(a, Within), s');
    }
  }

  lemma QuietStepKeeps(s: State, t: nat, s': State)
    requires Inv(s) && Step(s, t, s')
    requires s.programs[t].Outside? || s.programs[t].pos.Within?
    ensures Inv(s')
  {
    var p, q := s.programs[t], s'.programs[t];
    assert Legal(s, p);
    OrderAscends(q.access, s.tables);
    forall l | 0 <= l < |s.locks| ensures PcFits(q, l, PcAt(s.locks, l, t)) {
      assert PcFits(p, l, PcAt(s.locks, l, t));
    }
    forall l, u | 0 <= l < |s'.locks| && 0 <= u < |s'.programs|
      ensures PcFits(s'.programs[u], l, PcAt(s'.locks, l, u))
    {
      assert PcFits(s.programs[u], l, PcAt(s.locks, l, u));
    }
    forall u | 0 <= u < |s'.programs| ensures Legal(s', s'.programs[u]) {
      assert Legal(s, s.programs[u]);
    }
  }

  lemma StepKeeps(s: State, t: nat, s': State)
    requires Inv(s) && Step(s, t, s')
    ensures Inv(s') && s'.tables == s.tables && |s'.programs| == |s.programs|
  {
    match s.programs[t]
    case Outside => QuietStepKeeps(s, t, s');
    case Section(a, Within) => QuietStepKeeps(s, t, s');
    case Section(a, Taking(k)) => TakingStepKeeps(s, t, s');
    case Section(a, Leaving(k)) => LeavingStepKeeps(s, t, s');
    case Section(a, _) => GroupStepKeeps(s, t, s');
  }

  // ----- runs -----

  ghost predicate Next(s: State, s': State) { exists t: nat :: Step(s, t, s') }

  ghost predicate StepAt(run: seq<State>, i: nat)
    requires i + 1 < |run|
  {
    Next(run[i], run[i + 1])
  }

  predicate Initial(s: State) {
    && MUTEXES * s.tables <= |s.locks|
    && (forall l :: 0 <= l < |s.locks| ==> R.Initial(s.locks[l]) && |s.locks[l].threads| == |s.programs|)
    && (forall t :: 0 <= t < |s.programs| ==> s.programs[t].Outside?)
  }

  ghost predicate IsRun(run: seq<State>) {
    |run| > 0 && Initial(run[0]) && forall i :: 0 <= i < |run| - 1 ==> StepAt(run, i)
  }

  lemma {:induction false} RunKeeps(run: seq<State>, i: nat)
    requires IsRun(run) && i < |run|
    ensures Inv(run[i])
  {
    if i == 0 {
      forall l | 0 <= l < |run[0].locks| ensures R.Inv(run[0].locks[l]) {
        R.InitialInv(run[0].locks[l]);
      }
    } else {
      RunKeeps(run, i - 1);
      assert StepAt(run, i - 1);
      var t: nat :| Step(run[i - 1], t, run[i]);
      StepKeeps(run[i - 1], t, run[i]);
    }
  }

  // ----- exclusion -----

  /** Has everything its access asks for. */
  predicate Inside(p: Program) {
    p.Section? && (p.pos.Within? || p.pos.TakingGroup? || p.pos.InGroup?)
  }

  predicate Touches(a: Access, table: nat) {
    match a
    case SharedAccess(x, _) => x == table
    case ExclusiveAccess(x) => x == table
    case ExclusiveBiaccess(x, y) => x == table || y == table
  }

  lemma ExclusiveTakesAll(s: State, p: Program, table: nat, lock: nat)
    requires Legal(s, p) && Inside(p) && !p.access.SharedAccess? && Touches(p.access, table)
    requires MUTEXES * table <= lock < MUTEXES * (table + 1)
    ensures HoldsContainer(p, lock)
  {
    assert p.access.Order()[..|p.access.Order()|] == p.access.Order();
    MultimutexAscends(table, s.tables);
  }

  /** A thread that has exclusive access to a table holds all of its spinlocks, and no
      other thread holds even one of them. */
  lemma ExclusiveHolderIsAlone(run: seq<State>, i: nat, t: nat, u: nat, table: nat, lock: nat)
    requires IsRun(run) && i < |run| && t < |run[i].programs| && u < |run[i].programs| && t != u
    requires Inside(run[i].programs[t]) && Touches(run[i].programs[t].access, table)
    requires !run[i].programs[t].access.SharedAccess?
    requires MUTEXES * table <= lock < MUTEXES * (table + 1)
    ensures HoldsContainer(run[i].programs[t], lock) && !HoldsContainer(run[i].programs[u], lock)
  {
    RunKeeps(run, i);
    var s := run[i];
    var p, q := s.programs[t], s.programs[u];
    assert Legal(s, p);
    ExclusiveTakesAll(s, p, table, lock);
    OrderAscends(p.access, s.tables);
    assert PcFits(p, lock, PcAt(s.locks, lock, t));
    assert PcFits(q, lock, PcAt(s.locks, lock, u));
    R.HoldersExclude(s.locks[lock], t, u);
  }

  /** Two threads are inside accesses to the same table only if both share it. */
  lemma ContainerExclusion(run: seq<State>, i: nat, t: nat, u: nat, table: nat)
    requires IsRun(run) && i < |run| && t < |run[i].programs| && u < |run[i].programs| && t != u
    requires Inside(run[i].programs[t]) && Touches(run[i].programs[t].access, table)
    requires Inside(run[i].programs[u]) && Touches(run[i].programs[u].access, table)
    ensures run[i].programs[t].access.SharedAccess? && run[i].programs[u].access.SharedAccess?
  {
    RunKeeps(run, i);
    var p, q := run[i].programs[t], run[i].programs[u];
    assert Legal(run[i], p) && Legal(run[i], q);
    if !p.access.SharedAccess? {
      var lock := Contested(run[i], q, table);
      ExclusiveHolderIsAlone(run, i, t, u, table, lock);
    } else if !q.access.SharedAccess? {
      var lock := Contested(run[i], p, table);
      ExclusiveHolderIsAlone(run, i, u, t, table, lock);
    }
  }

  /** Whoever is inside an access to a table holds some spinlock of it. */
  lemma Contested(s: State, p: Program, table: nat) returns (lock: nat)
    requires Legal(s, p) && Inside(p) && Touches(p.access, table)
    ensures MUTEXES * table <= lock < MUTEXES * (table + 1) && HoldsContainer(p, lock)
  {
    if p.access.SharedAccess? {
      lock := MUTEXES * table + p.access.id;
      assert p.access.Order()[..1] == p.access.Order();
      assert lock == p.access.Order()[0];
    } else {
      lock := MUTEXES * table;
      ExclusiveTakesAll(s, p, table, lock);
    }
  }

  /** The same for one group: two threads hold its lock together only in shared mode. */
  lemma GroupExclusion(run: seq<State>, i: nat, t: nat, u: nat)
    requires IsRun(run) && i < |run| && t < |run[i].programs| && u < |run[i].programs| && t != u
    requires run[i].programs[t].Section? && run[i].programs[t].pos.InGroup?
    requires run[i].programs[u].Section? && run[i].programs[u].pos.InGroup?
    requires run[i].programs[t].pos.lock == run[i].programs[u].pos.lock
    ensures run[i].programs[t].pos.mode.Shared? && run[i].programs[u].pos.mode.Shared?
  {
    RunKeeps(run, i);
    var s := run[i];
    var p, q, lock := s.programs[t], s.programs[u], s.programs[t].pos.lock;
    assert Legal(s, p) && Legal(s, q);
    OrderAscends(p.access, s.tables);
    OrderAscends(q.access, s.tables);
    assert PcFits(p, lock, PcAt(s.locks, lock, t));
    assert PcFits(q, lock, PcAt(s.locks, lock, u));
    if p.pos.mode.Exclusive? {
      R.HoldersExclude(s.locks[lock], t, u);
    } else if q.pos.mode.Exclusive? {
      R.HoldersExclude(s.locks[lock], u, t);
    }
  }

  // ----- no circular wait -----

  /** Thread t can be kept waiting by u: u holds the spinlock, or t wants to share it
      while u is inside `lock`, so that u's pending bit turns t away. */
  ghost predicate WaitsOn(s: State, t: nat, u: nat) {
    && t < |s.programs| && u < |s.programs| && t != u && Waiting(s.programs[t])
    && var lock := Wanted(s.programs[t]);
       || Holds(s.programs[u], lock)
       || (WantedMode(s.programs[t]).Shared? && Waiting(s.programs[u])
           && Wanted(s.programs[u]) == lock && WantedMode(s.programs[u]).Exclusive?)
  }

  /** Ranks waiting threads by the spinlock they want, writers above readers. */
  function Rank(p: Program): nat
    requires Waiting(p)
  {
    2 * Wanted(p) + if WantedMode(p).Exclusive? then 1 else 0
  }

  lemma WaitingRaisesRank(s: State, t: nat, u: nat)
    requires Inv(s) && WaitsOn(s, t, u) && Waiting(s.programs[u])
    ensures Rank(s.programs[t]) < Rank(s.programs[u])
  {
    var p, q := s.programs[t], s.programs[u];
    assert Legal(s, p) && Legal(s, q);
    OrderAscends(q.access, s.tables);
    var lock := Wanted(p);
    if HoldsContainer(q, lock) {
      var n :| 0 <= n < Taken(q) && q.access.Order()[..Taken(q)][n] == lock;
      assert q.access.Order()[n] == lock;
    }
  }

  lemma {:induction false} HighestRank(s: State, W: set<nat>) returns (t: nat)
    requires W != {} && forall u :: u in W ==> u < |s.programs| && Waiting(s.programs[u])
    ensures t in W && forall u :: u in W ==> Rank(s.programs[u]) <= Rank(s.programs[t])
    decreases |W|
  {
    t :| t in W;
    var rest := W - {t};
    assert forall u :: u in W ==> u == t || u in rest;
    if rest != {} {
      var r := HighestRank(s, rest);
      if Rank(s.programs[t]) < Rank(s.programs[r]) {
        t := r;
      }
    }
  }

  /** In every state of every run, each set of waiting threads has a member that none of
      them keeps waiting; so there is no circular wait, whatever its length. */
  lemma NoCircularWait(run: seq<State>, i: nat, W: set<nat>) returns (t: nat)
    requires IsRun(run) && i < |run|
    requires W != {} && forall u :: u in W ==> u < |run[i].programs| && Waiting(run[i].programs[u])
    ensures t in W && forall u :: u in W ==> !WaitsOn(run[i], t, u)
  {
    RunKeeps(run, i);
    t := HighestRank(run[i], W);
    forall u | u in W ensures !WaitsOn(run[i], t, u) {
      if WaitsOn(run[i], t, u) {
        WaitingRaisesRank(run[i], t, u);
      }
    }
  }

  // ----- progress -----

  lemma {:induction false} SomeoneWeighs(threads: seq<R.Pc>, w: R.Pc -> int) returns (t: nat)
    requires Sum(threads, w) >= 1 && forall pc :: w(pc) == 0 || w(pc) == 1
    ensures t < |threads| && w(threads[t]) == 1
  {
    var last := |threads| - 1;
    if w(threads[last]) == 1 {
      t := last;
    } else {
      t := SomeoneWeighs(threads[..last], w);
    }
  }

  /** A spinlock that is not open is held by some thread, or a writer is after it. */
  lemma ClosedHasReason(s: R.State, mode: R.Mode) returns (u: nat)
    requires R.Inv(s) && !R.Free(s, mode)
    ensures u < |s.threads|
    ensures s.threads[u].HoldsShared? || s.threads[u].HoldsExclusive? || (mode.Shared? && R.InLock(s.threads[u]) == 1)
  {
    if R.Writers(s) >= 1 {
      u := SomeoneWeighs(s.threads, R.IsWriter);
    } else if R.Readers(s) >= 1 {
      u := SomeoneWeighs(s.threads, R.IsReader);
    } else {
      u := SomeoneWeighs(s.threads, R.InLock);
    }
  }

  /** A waiting thread that finds its spinlock taken waits on some thread, unless the
      reason is its own attempt. */
  lemma ClosedMeansWaiting(s: State, t: nat) returns (u: nat)
    requires Inv(s) && t < |s.programs| && Waiting(s.programs[t])
    requires Wanted(s.programs[t]) < |s.locks|
    requires !R.Free(s.locks[Wanted(s.programs[t])], WantedMode(s.programs[t]))
    ensures WaitsOn(s, t, u)
  {
    var p := s.programs[t];
    var lock := Wanted(p);
    u := ClosedHasReason(s.locks[lock], WantedMode(p));
    assert Legal(s, p);
    OrderAscends(p.access, s.tables);
    assert PcFits(p, lock, PcAt(s.locks, lock, t));
    assert PcFits(s.programs[u], lock, PcAt(s.locks, lock, u));
    if p.pos.Taking? {
      OneMoreTaken(p.access.Order(), p.pos.k, lock);
    }
  }

  lemma HighestWaitsOnActive(s: State, t: nat, u: nat)
    requires Inv(s) && WaitsOn(s, t, u)
    requires forall v :: 0 <= v < |s.programs| && Waiting(s.programs[v]) ==> Rank(s.programs[v]) <= Rank(s.programs[t])
    ensures !Waiting(s.programs[u]) && s.programs[u].Section?
  {
    if Waiting(s.programs[u]) {
      WaitingRaisesRank(s, t, u);
    }
  }

  lemma HighestWaiter(s: State, t: nat) returns (v: nat)
    requires t < |s.programs| && Waiting(s.programs[t])
    ensures v < |s.programs| && Waiting(s.programs[v])
    ensures forall w :: 0 <= w < |s.programs| && Waiting(s.programs[w]) ==> Rank(s.programs[w]) <= Rank(s.programs[v])
  {
    var W := set w | 0 <= w < |s.programs| && Waiting(s.programs[w]);
    assert t in W;
    v := HighestRank(s, W);
    assert forall w :: 0 <= w < |s.programs| && Waiting(s.programs[w]) ==> w in W;
  }

  lemma WantedExists(s: State, t: nat)
    requires Inv(s) && t < |s.programs| && Waiting(s.programs[t])
    ensures Wanted(s.programs[t]) < |s.locks|
  {
    assert Legal(s, s.programs[t]);
    OrderAscends(s.programs[t].access, s.tables);
  }

  // Undisturbed runs of one thread

  ghost predicate SoloPath(path: seq<State>, u: nat) {
    |path| > 0 && forall m :: 0 < m < |path| ==> Step(path[m - 1], u, path[m])
  }

  function Last(path: seq<State>): State
    requires |path| > 0
  {
    path[|path| - 1]
  }

  /** What the program becomes when it gets the spinlock it wants. */
  function Granted(p: Program): Program
    requires Waiting(p)
  {
    if p.pos.TakingGroup? then Section(p.access, InGroup(p.pos.lock, p.pos.mode))
    else Section(p.access, if p.pos.k + 1 == |p.access.Order()| then Within else Taking(p.pos.k + 1))
  }

  function WithLock(s: State, lock: nat, r: R.State): State
    requires lock < |s.locks|
  {
    s.(locks := s.locks[lock := r])
  }

  lemma AttemptStep(s: State, u: nat, r: R.State)
    requires u < |s.programs| && Waiting(s.programs[u])
    requires var lock := Wanted(s.programs[u]);
      lock < |s.locks| && R.Step(s.locks[lock], u, r) && u < |r.threads|
    requires var mode := WantedMode(s.programs[u]); r.threads[u] == R.HeldPc(mode) || R.Attempting(mode, r.threads[u])
    ensures var s1 := WithLock(s, Wanted(s.programs[u]), r);
      Step(s, u, if r.threads[u] == R.HeldPc(WantedMode(s.programs[u]))
        then s1.(programs := s.programs[u := Granted(s.programs[u])]) else s1)
  {
  }

  lemma {:induction false} AttemptPath(s: State, u: nat, path: seq<R.State>, n: nat) returns (states: seq<State>)
    requires u < |s.programs| && Waiting(s.programs[u]) && Wanted(s.programs[u]) < |s.locks|
    requires n < |path| && R.SoloPath(path, u) && path[0] == s.locks[Wanted(s.programs[u])]
    requires forall m :: 0 <= m <= n ==>
      u < |path[m].threads| && R.Attempting(WantedMode(s.programs[u]), path[m].threads[u])
    ensures SoloPath(states, u) && |states| == n + 1 && states[0] == s
    ensures Last(states) == WithLock(s, Wanted(s.programs[u]), path[n])
  {
    if n == 0 {
      states := [s];
    } else {
      states := AttemptPath(s, u, path, n - 1);
      AttemptStep(Last(states), u, path[n]);
      states := states + [WithLock(s, Wanted(s.programs[u]), path[n])];
    }
  }

  /** A waiting thread whose spinlock is free holds it after at most three own steps. */
  lemma FreeSpinlockIsTaken(s: State, u: nat) returns (path: seq<State>)
    requires Inv(s) && u < |s.programs| && Waiting(s.programs[u]) && Wanted(s.programs[u]) < |s.locks|
    requires R.Free(s.locks[Wanted(s.programs[u])], WantedMode(s.programs[u]))
    ensures SoloPath(path, u) && |path| <= 4 && path[0] == s
    ensures Last(path).programs == s.programs[u := Granted(s.programs[u])]
  {
    var p := s.programs[u];
    var lock := Wanted(p);
    NotYetHeld(s, u);
    var rs := R.GetsInAlone(s.locks[lock], u, WantedMode(p));
    path := AttemptPath(s, u, rs, |rs| - 2);
    AttemptStep(Last(path), u, rs[|rs| - 1]);
    path := path + [WithLock(s, lock, rs[|rs| - 1]).(programs := s.programs[u := Granted(p)])];
  }

  lemma NotYetHeld(s: State, u: nat)
    requires Inv(s) && u < |s.programs| && Waiting(s.programs[u]) && Wanted(s.programs[u]) < |s.locks|
    ensures !Holds(s.programs[u], Wanted(s.programs[u]))
    ensures u < |s.locks[Wanted(s.programs[u])].threads|
    ensures R.Attempting(WantedMode(s.programs[u]), PcAt(s.locks, Wanted(s.programs[u]), u))
  {
    var p := s.programs[u];
    assert Legal(s, p);
    OrderAscends(p.access, s.tables);
    assert PcFits(p, Wanted(p), PcAt(s.locks, Wanted(p), u));
    if p.pos.Taking? {
      OneMoreTaken(p.access.Order(), p.pos.k, Wanted(p));
    } else {
      assert p.access.Order()[..|p.access.Order()|] == p.access.Order();
    }
  }

  lemma GrantedHolds(p: Program)
    requires Waiting(p)
    ensures Holds(Granted(p), Wanted(p))
  {
    if p.pos.Taking? {
      var o, k := p.access.Order(), p.pos.k;
      assert Taken(Granted(p)) == k + 1;
      assert o[..k + 1][k] == o[k];
    }
  }

  /** What a thread that waits for nothing gives up next, and in which mode it holds it. */
  lemma ReleaseStep(s: State, u: nat, lock: nat, mode: R.Mode, next: Program) returns (s1: State)
    requires Inv(s) && u < |s.programs| && lock < |s.locks| && PcAt(s.locks, lock, u) == R.HeldPc(mode)
    ensures Release(s, u, lock, next, s1) && s1.programs == s.programs[u := next]
  {
    var r := s.locks[lock];
    R.HolderLeaves(r, u, R.Swap(r, if mode.Shared? then (r.word + 0xFFFF_FFFF) % 0x1_0000_0000 else 0, u, R.Idle));
    var r1: R.State :| R.Step(r, u, r1);
    R.HolderLeaves(r, u, r1);
    s1 := WithLock(s, lock, r1).(programs := s.programs[u := next]);
  }

  /** Own steps, beyond attempts, that a program has before it. */
  function Work(p: Program): int {
    if p.Outside? then 0 else
      var n := |p.access.Order()|;
      match p.pos
      case Taking(k) => 2 * n - k + 1
      case Within => n + 1
      case TakingGroup(_, _) => n + 3
      case InGroup(_, _) => n + 2
      case Leaving(k) => k
  }

  lemma WorkIsPositive(s: State, p: Program)
    requires Legal(s, p)
    ensures Work(p) >= 0 && (p.Section? ==> Work(p) > 0)
    ensures Waiting(p) ==> Work(Granted(p)) < Work(p)
  {
  }

  /** A thread inside an access that waits for no spinlock has a step towards the exit. */
  lemma ActiveGoesOn(s: State, u: nat) returns (s1: State)
    requires Inv(s) && u < |s.programs| && s.programs[u].Section? && !Waiting(s.programs[u])
    ensures Step(s, u, s1) && |s1.programs| == |s.programs| && s1.programs == s.programs[u := s1.programs[u]]
    ensures !Waiting(s1.programs[u]) && Work(s1.programs[u]) < Work(s.programs[u])
  {
    var p := s.programs[u];
    assert Legal(s, p);
    OrderAscends(p.access, s.tables);
    var a := p.access;
    if p.pos.Within? {
      s1 := s.(programs := s.programs[u := Section(a, Leaving(|a.Order()|))]);
    } else if p.pos.InGroup? {
      assert PcFits(p, p.pos.lock, PcAt(s.locks, p.pos.lock, u));
      assert a.Order()[..|a.Order()|] == a.Order();
      s1 := ReleaseStep(s, u, p.pos.lock, p.pos.mode, Section(a, Within));
    } else {
      var k := p.pos.k;
      var lock := a.Order()[k - 1];
      assert a.Order()[..k][k - 1] == lock;
      assert PcFits(p, lock, PcAt(s.locks, lock, u));
      s1 := ReleaseStep(s, u, lock, a.Mode(), if k == 1 then Outside else Section(a, Leaving(k - 1)));
    }
  }

  /** So it gets out by its own steps alone. */
  lemma {:induction false} ActiveLeaves(s: State, u: nat) returns (path: seq<State>)
    requires Inv(s) && u < |s.programs| && !Waiting(s.programs[u])
    ensures SoloPath(path, u) && path[0] == s && Last(path).programs == s.programs[u := Outside]
    decreases Work(s.programs[u])
  {
    assert Legal(s, s.programs[u]);
    WorkIsPositive(s, s.programs[u]);
    if s.programs[u].Outside? {
      path := [s];
      assert s.programs[u := Outside] == s.programs;
    } else {
      var s1 := ActiveGoesOn(s, u);
      StepKeeps(s, u, s1);
      var rest := ActiveLeaves(s1, u);
      StepFirst(s, u, rest);
      path := [s] + rest;
    }
  }

  lemma StepFirst(s: State, u: nat, rest: seq<State>)
    requires SoloPath(rest, u) && Step(s, u, rest[0])
    ensures SoloPath([s] + rest, u) && Last([s] + rest) == Last(rest)
  {
    var path := [s] + rest;
    forall m | 0 < m < |path| ensures Step(path[m - 1], u, path[m]) {
      if m > 1 {
        assert Step(rest[m - 2], u, rest[m - 1]);
      }
    }
  }

  /** A thread outside may begin any access there is, and one within may go for any group. */
  lemma MayGoFor(s: State, t: nat, a: Access, lock: nat, mode: R.Mode)
    requires t < |s.programs|
    ensures s.programs[t].Outside? && a.Fits(s.tables) ==>
      Step(s, t, s.(programs := s.programs[t := Section(a, Taking(0))]))
    ensures s.programs[t] == Section(a, Within) && MUTEXES * s.tables <= lock < |s.locks| ==>
      Step(s, t, s.(programs := s.programs[t := Section(a, TakingGroup(lock, mode))]))
  {
    assert s.programs[t := Section(a, Taking(0))][t] == Section(a, Taking(0));
    assert s.programs[t := Section(a, TakingGroup(lock, mode))][t] == Section(a, TakingGroup(lock, mode));
  }

  /** No deadlock: as long as some thread is inside an access, some thread, by its own steps
      alone, gets the spinlock it is waiting for, or waits for none and gets out. */
  lemma SomeoneCanProceed(run: seq<State>, i: nat, t: nat) returns (u: nat, path: seq<State>)
    requires IsRun(run) && i < |run| && t < |run[i].programs| && run[i].programs[t].Section?
    ensures u < |run[i].programs| && run[i].programs[u].Section?
    ensures SoloPath(path, u) && path[0] == run[i]
    ensures var p, q := run[i].programs[u], Last(path).programs;
      if Waiting(p) then |path| <= 4 && u < |q| && Holds(q[u], Wanted(p)) && q == run[i].programs[u := Granted(p)]
      else q == run[i].programs[u := Outside]
  {
    RunKeeps(run, i);
    u, path := SomeoneProceeds(run[i], t);
    if Waiting(run[i].programs[u]) {
      GrantedHolds(run[i].programs[u]);
    }
  }

  lemma SomeoneProceeds(s: State, t: nat) returns (u: nat, path: seq<State>)
    requires Inv(s) && t < |s.programs| && s.programs[t].Section?
    ensures u < |s.programs| && s.programs[u].Section? && SoloPath(path, u) && path[0] == s
    ensures if Waiting(s.programs[u]) then |path| <= 4 && Last(path).programs == s.programs[u := Granted(s.programs[u])]
      else Last(path).programs == s.programs[u := Outside]
  {
    u := SomeoneFree(s, t);
    if Waiting(s.programs[u]) {
      WantedExists(s, u);
      path := FreeSpinlockIsTaken(s, u);
    } else {
      path := ActiveLeaves(s, u);
    }
  }

  /** Some thread waits for nothing, or for a spinlock that is free. */
  lemma SomeoneFree(s: State, t: nat) returns (u: nat)
    requires Inv(s) && t < |s.programs| && s.programs[t].Section?
    ensures u < |s.programs| && s.programs[u].Section?
    ensures Waiting(s.programs[u]) ==>
      Wanted(s.programs[u]) < |s.locks| && R.Free(s.locks[Wanted(s.programs[u])], WantedMode(s.programs[u]))
  {
    u := t;
    if Waiting(s.programs[t]) {
      u := HighestWaiter(s, t);
      WantedExists(s, u);
      if !R.Free(s.locks[Wanted(s.programs[u])], WantedMode(s.programs[u])) {
        var v := u;
        u := ClosedMeansWaiting(s, v);
        HighestWaitsOnActive(s, v, u);
      }
    }
  }

  lemma {:induction false} SoloPathKeeps(path: seq<State>, u: nat, n: nat)
    requires SoloPath(path, u) && Inv(path[0]) && n < |path|
    ensures Inv(path[n])
  {
    if n > 0 {
      SoloPathKeeps(path, u, n - 1);
      StepKeeps(path[n - 1], u, path[n]);
    }
  }

  /** A row of states, each one action after the one before. */
  ghost predicate Continues(path: seq<State>) {
    |path| > 0 && forall m :: 0 <= m < |path| - 1 ==> StepAt(path, m)
  }

  lemma Joined(a: seq<State>, b: seq<State>)
    requires Continues(a) && Continues(b) && Last(a) == b[0]
    ensures Continues(a + b[1..]) && (a + b[1..])[0] == a[0] && Last(a + b[1..]) == Last(b)
  {
    var c := a + b[1..];
    forall m | 0 <= m < |c| - 1 ensures StepAt(c, m) {
      if m < |a| - 1 {
        assert StepAt(a, m);
      } else {
        assert StepAt(b, m - (|a| - 1));
      }
    }
  }

  lemma SoloContinues(path: seq<State>, u: nat)
    requires SoloPath(path, u)
    ensures Continues(path)
  {
    forall m | 0 <= m < |path| - 1 ensures StepAt(path, m) {
      assert Step(path[m + 1 - 1], u, path[m + 1]);
    }
  }

  /** From every state within the invariant everyone can still get out. */
  lemma {:induction false} CanEmpty(s: State) returns (path: seq<State>)
    requires Inv(s)
    ensures Continues(path) && path[0] == s && Inv(Last(path))
    ensures forall t :: 0 <= t < |Last(path).programs| ==> Last(path).programs[t].Outside?
    decreases Sum(s.programs, Work)
  {
    if t :| 0 <= t < |s.programs| && s.programs[t].Section? {
      var u, first := SomeoneProceeds(s, t);
      SoloPathKeeps(first, u, |first| - 1);
      SoloContinues(first, u);
      LessWork(s, u, Last(first));
      var rest := CanEmpty(Last(first));
      Joined(first, rest);
      path := first + rest[1..];
    } else {
      path := [s];
    }
  }

  lemma LessWork(s: State, u: nat, s1: State)
    requires Inv(s) && u < |s.programs| && s.programs[u].Section?
    requires s1.programs
      == s.programs[u := if Waiting(s.programs[u]) then Granted(s.programs[u]) else Outside]
    requires Inv(s1)
    ensures 0 <= Sum(s1.programs, Work) < Sum(s.programs, Work)
  {
    assert Legal(s, s.programs[u]);
    WorkIsPositive(s, s.programs[u]);
    SumUpdate(s.programs, u, s1.programs[u], Work);
    forall t | 0 <= t < |s1.programs| ensures Work(s1.programs[t]) >= 0 {
      assert Legal(s1, s1.programs[t]);
      WorkIsPositive(s1, s1.programs[t]);
    }
    SumNonNegative(s1.programs, Work);
  }

  /** Every run can be continued until all threads are outside and every spinlock's word is
      zero again. */
  lemma EveryoneCanLeave(run: seq<State>) returns (longer: seq<State>)
    requires IsRun(run)
    ensures IsRun(longer) && run <= longer
    ensures var s := Last(longer);
      && (forall t :: 0 <= t < |s.programs| ==> s.programs[t].Outside?)
      && (forall l :: 0 <= l < |s.locks| ==> s.locks[l].word == 0)
  {
    RunKeeps(run, |run| - 1);
    var rest := CanEmpty(Last(run));
    Joined(run, rest);
    longer := run + rest[1..];
    var s := Last(rest);
    forall l | 0 <= l < |s.locks| ensures s.locks[l].word == 0 {
      AllIdle(s, l);
    }
  }

  lemma AllIdle(s: State, l: nat)
    requires Inv(s) && l < |s.locks| && forall t :: 0 <= t < |s.programs| ==> s.programs[t].Outside?
    ensures s.locks[l].word == 0
  {
    forall t | 0 <= t < |s.programs| ensures s.locks[l].threads[t].Idle? {
      assert PcFits(s.programs[t], l, PcAt(s.locks, l, t));
    }
    SumConstant(s.locks[l].threads, R.IsReader, 0);
    SumConstant(s.locks[l].threads, R.IsWriter, 0);
    SumConstant(s.locks[l].threads, R.InLock, 0);
  }
}
