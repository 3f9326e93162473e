/** Every operation of the concurrent table takes effect at one moment between its
    beginning and its end, where its answer is that of a plain map; and a lookup of a
    present key ends. */
module ProtocolLinearization {
  import opened Probing
  import opened Tables
  import opened Protocol
  import opened ProtocolInvariant
  import opened ProtocolAccounts
  import opened ProtocolTheorems
  import opened ProtocolTable

  /** What an operation does to a plain map, and what it returns: the number of elements
      visited, inserted or erased, and the value its callback is shown. Callbacks assign
      what they like to an element of their own, and to one they find if they visit it
      exclusively. */
  function Apply(table: map<Key, int>, op: Op): (map<Key, int>, Reply) {
    match op
    case Visit(key, update, exclusive) =>
      if key !in table then (table, Reply(0, None))
      else (if exclusive then table[key := update(table[key])] else table, Reply(1, Some(table[key])))
    case Insert(elem, initial, update, exclusive) =>
      if elem.key !in table then (table[elem.key := initial(elem.val)], Reply(1, Some(elem.val)))
      else (if exclusive then table[elem.key := update(table[elem.key])] else table, Reply(0, Some(table[elem.key])))
    case Erase(key) =>
      if key !in table then (table, Reply(0, None)) else (table - {key}, Reply(1, None))
  }

  /** The step from state m is thread t's. */
  ghost predicate Moves(run: seq<State>, m: nat, t: nat)
    requires m + 1 < |run|
  {
    t < |run[m].threads| && t < |run[m + 1].threads| && run[m].threads[t] != run[m + 1].threads[t]
  }

  ghost predicate TableStays(run: seq<State>, m: nat)
    requires m + 1 < |run|
  {
    run[m + 1].table == run[m].table
  }

  /** From state i to state m thread t leaves the map alone. */
  ghost predicate Silent(run: seq<State>, i: nat, m: nat, t: nat)
    requires m < |run|
  {
    forall q :: i <= q < m && Moves(run, q, t) ==> TableStays(run, q)
  }

  /** The same but for the step from state p. */
  ghost predicate SilentBut(run: seq<State>, i: nat, m: nat, t: nat, p: nat)
    requires m < |run|
  {
    forall q :: i <= q < m && q != p && Moves(run, q, t) ==> TableStays(run, q)
  }

  /** p is the moment of an operation of thread t that ran from state i to state m: the map
      there gives the reply; if the operation changes the map, the step from there is
      thread t's and makes this change, and no other step of the thread makes any. */
  ghost predicate PointAt(run: seq<State>, i: nat, m: nat, t: nat, op: Op, reply: Reply, p: nat)
    requires m < |run| && i <= p < m
  {
    var (table, answer) := Apply(run[p].table, op);
    && reply == answer
    && if table != run[p].table then
         Moves(run, p, t) && run[p + 1].table == table && SilentBut(run, i, m, t, p)
       else
         Silent(run, i, m, t)
  }

  ghost predicate Linearized(run: seq<State>, i: nat, m: nat, t: nat, op: Op, reply: Reply)
    requires m < |run|
  {
    exists p :: i <= p < m && PointAt(run, i, m, t, op, reply, p)
  }

  /** What an operation has decided to return. */
  function Verdict(th: Thread): Option<Reply> {
    match th.pc
    case Outside(reply) => Some(reply)
    case Leave(_, _, reply) => Some(reply)
    case EraseLoad(_) => Some(Reply(1, None))
    case EraseReset(_, _) => Some(Reply(1, None))
    case EraseCount(_, _) => Some(Reply(1, None))
    case Construct(_) => if th.op.Insert? then Some(Reply(1, Some(th.op.elem.val))) else None
    case Inserted(_) => if th.op.Insert? then Some(Reply(1, Some(th.op.elem.val))) else None
    case _ => None
  }

  ghost predicate LookingSince(run: seq<State>, i: nat, m: nat, t: nat)
    requires m < |run|
  {
    forall q :: i <= q <= m ==> t < |run[q].threads| && Looking(run[q].threads[t].pc)
  }

  /** How far the operation that began at state i has come. */
  ghost predicate Story(run: seq<State>, i: nat, m: nat, t: nat, op: Op)
    requires m < |run|
  {
    && t < |run[m].threads| && run[m].threads[t].op == op
    && var th := run[m].threads[t];
       if Verdict(th).Some? then Linearized(run, i, m, t, op, Verdict(th).value)
       else Silent(run, i, m, t) && (Looking(th.pc) && !op.Insert? ==> LookingSince(run, i, m, t))
  }

  // ----- one more step -----

  lemma SilentGrows(run: seq<State>, i: nat, m: nat, t: nat)
    requires m + 1 < |run| && Silent(run, i, m, t) && (Moves(run, m, t) ==> TableStays(run, m))
    ensures Silent(run, i, m + 1, t)
  {
  }

  lemma LinearizedGrows(run: seq<State>, i: nat, m: nat, t: nat, op: Op, reply: Reply)
    requires m + 1 < |run| && Linearized(run, i, m, t, op, reply) && (Moves(run, m, t) ==> TableStays(run, m))
    ensures Linearized(run, i, m + 1, t, op, reply)
  {
    var p :| i <= p < m && PointAt(run, i, m, t, op, reply, p);
    assert PointAt(run, i, m + 1, t, op, reply, p);
  }

  /** The map gave this answer, and no change, at a moment that has gone by. */
  lemma AnsweredBefore(run: seq<State>, i: nat, m: nat, t: nat, op: Op, reply: Reply, p: nat)
    requires i <= p <= m && m + 1 < |run|
    requires Silent(run, i, m, t) && TableStays(run, m) && Apply(run[p].table, op) == (run[p].table, reply)
    ensures Linearized(run, i, m + 1, t, op, reply)
  {
    SilentGrows(run, i, m, t);
    assert PointAt(run, i, m + 1, t, op, reply, p);
  }

  /** The thread's step from state m does what the map does. */
  lemma DecidedNow(run: seq<State>, i: nat, m: nat, t: nat, op: Op, reply: Reply)
    requires i <= m && m + 1 < |run| && Silent(run, i, m, t) && Moves(run, m, t)
    requires Apply(run[m].table, op) == (run[m + 1].table, reply)
    ensures Linearized(run, i, m + 1, t, op, reply)
  {
    assert PointAt(run, i, m + 1, t, op, reply, m);
  }

  lemma OtherMoves(run: seq<State>, i: nat, m: nat, t: nat, op: Op)
    requires i <= m && m + 1 < |run| && Story(run, i, m, t, op)
    requires t < |run[m + 1].threads| && !Moves(run, m, t)
    ensures Story(run, i, m + 1, t, op)
  {
    var th := run[m].threads[t];
    if Verdict(th).Some? {
      LinearizedGrows(run, i, m, t, op, Verdict(th).value);
    } else {
      SilentGrows(run, i, m, t);
    }
  }

  // ----- what the thread's own steps can do -----

  /** Only what was found and what wins at the counter touches the map. */
  lemma OthersKeepTable(s: State, t: nat, s': State)
    requires Shape(s) && t < |s.threads| && InnerStep(s, t, s') && !s.threads[t].pc.Found? && !Commits(s, t)
    ensures s'.table == s.table
  {
    if CommitStep(s, t, s') {
      CommitKeepsTable(s, t, s');
    } else if LookupStep(s, t, s') {
      LookupTable(s, t, s');
    } else {
      ReserveKeepsTable(s, t, s');
    }
  }

  lemma CommitKeepsTable(s: State, t: nat, s': State)
    requires Shape(s) && t < |s.threads| && CommitStep(s, t, s') && !Commits(s, t)
    ensures s'.table == s.table
  {
  }

  lemma ReserveKeepsTable(s: State, t: nat, s': State)
    requires Shape(s) && t < |s.threads| && (EraseStep(s, t, s') || ReserveStep(s, t, s'))
    ensures s'.table == s.table
  {
  }

  lemma LeaveVerdict(s: State, t: nat, s': State)
    requires Shape(s) && t < |s.threads| && LookupStep(s, t, s') && Verdict(s.threads[t]).Some?
    ensures t < |s'.threads| && Verdict(s'.threads[t]) == Verdict(s.threads[t])
  {
  }

  lemma EraseVerdict(s: State, t: nat, s': State)
    requires Shape(s) && t < |s.threads| && EraseStep(s, t, s')
    ensures t < |s'.threads| && Verdict(s.threads[t]) == Verdict(s'.threads[t]) == Some(Reply(1, None))
  {
  }

  lemma CommitVerdict(s: State, t: nat, s': State)
    requires Shape(s) && t < |s.threads| && CommitStep(s, t, s') && Verdict(s.threads[t]).Some?
    requires Promised(s, s.threads[t])
    ensures t < |s'.threads| && Verdict(s'.threads[t]) == Verdict(s.threads[t])
  {
  }

  lemma VerdictStays(s: State, t: nat, s': State)
    requires Inv(s) && TableOk(s) && t < |s.threads| && InnerStep(s, t, s') && Verdict(s.threads[t]).Some?
    ensures t < |s'.threads| && Verdict(s'.threads[t]) == Verdict(s.threads[t])
    ensures s'.table == s.table
  {
    OthersKeepTable(s, t, s');
    if LookupStep(s, t, s') {
      LeaveVerdict(s, t, s');
    } else if EraseStep(s, t, s') {
      EraseVerdict(s, t, s');
    } else {
      assert Promised(s, s.threads[t]);
      CommitVerdict(s, t, s');
    }
  }

  /** The steps at which a lookup without a verdict gets one. */
  lemma LookupDecides(s: State, t: nat, s': State)
    requires Shape(s) && t < |s.threads| && LookupStep(s, t, s') && Verdict(s.threads[t]) == None
    requires !s.threads[t].pc.Found?
    ensures t < |s'.threads|
    ensures Verdict(s'.threads[t]).Some? ==>
      s.threads[t].pc.CheckOverflow? && s'.threads[t].pc == Outside(Reply(0, None)) && !s.threads[t].op.Insert?
    ensures Looking(s'.threads[t].pc) ==> Looking(s.threads[t].pc)
  {
  }

  lemma FoundDecides(s: State, t: nat, s': State)
    requires Shape(s) && t < |s.threads| && LookupStep(s, t, s') && s.threads[t].pc.Found?
    requires var x, key := s.threads[t].pc.x, s.threads[t].op.Target();
      x < |s.arr.slots| && key in s.table && s.table[key] == ValueIn(s.arr.slots[x])
    ensures t < |s'.threads| && s'.threads[t] != s.threads[t] && Verdict(s'.threads[t]).Some?
    ensures Apply(s.table, s.threads[t].op) == (s'.table, Verdict(s'.threads[t]).value)
  {
  }

  lemma ReserveDecidesNothing(s: State, t: nat, s': State)
    requires Shape(s) && t < |s.threads| && ReserveStep(s, t, s')
    ensures t < |s'.threads| && Verdict(s'.threads[t]) == None && s.threads[t].op.Insert?
  {
    assert PcShape(s.arr, s.threads[t]);
  }

  lemma RollbackDecidesNothing(s: State, t: nat, s': State)
    requires Shape(s) && t < |s.threads| && CommitStep(s, t, s') && Verdict(s.threads[t]) == None && !Commits(s, t)
    ensures t < |s'.threads| && s.threads[t].op.Insert? && !Looking(s'.threads[t].pc)
    ensures Verdict(s'.threads[t]) == None
  {
    assert PcShape(s.arr, s.threads[t]);
  }

  lemma CommitDecides(s: State, t: nat, s': State)
    requires Shape(s) && t < |s.threads| && CommitStep(s, t, s') && Commits(s, t)
    requires s.threads[t].op.Target() !in s.table
    ensures t < |s'.threads| && s'.threads[t] != s.threads[t] && Verdict(s'.threads[t]).Some?
    ensures Apply(s.table, s.threads[t].op) == (s'.table, Verdict(s'.threads[t]).value)
  {
    assert PcShape(s.arr, s.threads[t]);
  }

  lemma ExclusiveDecidesNothing(s: State, t: nat, s': State)
    requires Shape(s) && t < |s.threads| && ExclusiveStep(s, t, s') && !s.threads[t].pc.Outside?
    ensures t < |s'.threads| && s'.threads[t].op == s.threads[t].op && s.threads[t].op.Insert?
    ensures Verdict(s.threads[t]) == Verdict(s'.threads[t]) == None && s'.table == s.table
    ensures !Looking(s'.threads[t].pc)
  {
    assert PcShape(s.arr, s.threads[t]);
  }

  // ----- the story goes on -----

  lemma DecidedMoves(run: seq<State>, i: nat, m: nat, t: nat, op: Op)
    requires i <= m && m + 1 < |run| && Story(run, i, m, t, op) && Inv(run[m]) && TableOk(run[m])
    requires InnerStep(run[m], t, run[m + 1]) && Verdict(run[m].threads[t]).Some?
    ensures Story(run, i, m + 1, t, op)
  {
    VerdictStays(run[m], t, run[m + 1]);
    InnerQuiet(run[m], t, run[m + 1]);
    LinearizedGrows(run, i, m, t, op, Verdict(run[m].threads[t]).value);
  }

  lemma FoundMoves(run: seq<State>, i: nat, m: nat, t: nat, op: Op)
    requires i <= m && m + 1 < |run| && Story(run, i, m, t, op) && Inv(run[m]) && TableOk(run[m])
    requires LookupStep(run[m], t, run[m + 1]) && run[m].threads[t].pc.Found?
    ensures Story(run, i, m + 1, t, op)
  {
    FoundInTable(run[m], t);
    FoundDecides(run[m], t, run[m + 1]);
    LookupQuiet(run[m], t, run[m + 1]);
    DecidedNow(run, i, m, t, op, Verdict(run[m + 1].threads[t]).value);
  }

  lemma NotFoundMoves(run: seq<State>, i: nat, m: nat, t: nat, op: Op)
    requires IsRun(run) && i <= m && m + 1 < |run| && Story(run, i, m, t, op) && Inv(run[m])
    requires LookupStep(run[m], t, run[m + 1]) && Verdict(run[m].threads[t]) == None
    requires !run[m].threads[t].pc.Found?
    requires !op.Insert? ==> t < |run[i].threads| && BeginsLookup(run[i].threads[t], op.Target())
    ensures Story(run, i, m + 1, t, op)
  {
    LookupDecides(run[m], t, run[m + 1]);
    LookupQuiet(run[m], t, run[m + 1]);
    LookupTable(run[m], t, run[m + 1]);
    if Verdict(run[m + 1].threads[t]).Some? {
      AbsentMoves(run, i, m, t, op);
    } else {
      SilentGrows(run, i, m, t);
    }
  }

  lemma AbsentMoves(run: seq<State>, i: nat, m: nat, t: nat, op: Op)
    requires IsRun(run) && i <= m && m + 1 < |run| && Silent(run, i, m, t) && LookingSince(run, i, m, t)
    requires t < |run[m + 1].threads| && run[m + 1].threads[t].pc.Outside? && TableStays(run, m)
    requires !op.Insert? && BeginsLookup(run[i].threads[t], op.Target())
    ensures Linearized(run, i, m + 1, t, op, Reply(0, None))
  {
    var p := AbsentMoment(run, i, m + 1, t, op.Target());
    AnsweredBefore(run, i, m, t, op, Reply(0, None), if p == m + 1 then m else p);
  }

  lemma AbsentMoment(run: seq<State>, i: nat, j: nat, t: nat, k: Key) returns (p: nat)
    requires IsRun(run) && i < j < |run| && LookingSince(run, i, j - 1, t)
    requires BeginsLookup(run[i].threads[t], k) && t < |run[j].threads| && run[j].threads[t].pc.Outside?
    ensures i <= p <= j && k !in run[p].table
  {
    AbsentAnswerWasRight(run, i, j, t, k);
    p :| i <= p <= j && k !in Keys(run[p]) && !Stored(run[p], k);
    RunTable(run, p);
  }

  lemma CommitMoves(run: seq<State>, i: nat, m: nat, t: nat, op: Op)
    requires i <= m && m + 1 < |run| && Story(run, i, m, t, op) && Inv(run[m]) && TableOk(run[m])
    requires CommitStep(run[m], t, run[m + 1]) && Verdict(run[m].threads[t]) == None
    ensures Story(run, i, m + 1, t, op)
  {
    CommitQuiet(run[m], t, run[m + 1]);
    if Commits(run[m], t) {
      CommitIsFirst(run[m], t);
      CommitDecides(run[m], t, run[m + 1]);
      DecidedNow(run, i, m, t, op, Verdict(run[m + 1].threads[t]).value);
    } else {
      RollbackDecidesNothing(run[m], t, run[m + 1]);
      CommitKeepsTable(run[m], t, run[m + 1]);
      SilentGrows(run, i, m, t);
    }
  }

  lemma ReserveMoves(run: seq<State>, i: nat, m: nat, t: nat, op: Op)
    requires i <= m && m + 1 < |run| && Story(run, i, m, t, op) && Inv(run[m])
    requires ReserveStep(run[m], t, run[m + 1]) && Verdict(run[m].threads[t]) == None
    ensures Story(run, i, m + 1, t, op)
  {
    ReserveDecidesNothing(run[m], t, run[m + 1]);
    ReserveQuiet(run[m], t, run[m + 1]);
    ReserveKeepsTable(run[m], t, run[m + 1]);
    SilentGrows(run, i, m, t);
  }

  lemma ExclusiveMoves(run: seq<State>, i: nat, m: nat, t: nat, op: Op)
    requires i <= m && m + 1 < |run| && Story(run, i, m, t, op) && Shape(run[m])
    requires ExclusiveStep(run[m], t, run[m + 1]) && !run[m].threads[t].pc.Outside?
    ensures Story(run, i, m + 1, t, op)
  {
    ExclusiveDecidesNothing(run[m], t, run[m + 1]);
    SilentGrows(run, i, m, t);
  }

  lemma StoryStep(run: seq<State>, i: nat, m: nat, t: nat, op: Op)
    requires IsRun(run) && i <= m && m + 1 < |run| && Story(run, i, m, t, op)
    requires !run[m].threads[t].pc.Outside?
    requires !op.Insert? ==> t < |run[i].threads| && BeginsLookup(run[i].threads[t], op.Target())
    ensures Story(run, i, m + 1, t, op)
  {
    RunInv(run, m);
    RunNext(run, m + 1);
    var s, s' := run[m], run[m + 1];
    var u :| 0 <= u < |s.threads| && Step(s, u, s');
    SameThreads(s, u, s');
    if u != t {
      OtherMoves(run, i, m, t, op);
    } else if ExclusiveStep(s, t, s') {
      ExclusiveMoves(run, i, m, t, op);
    } else {
      InnerMoves(run, i, m, t, op);
    }
  }

  lemma InnerMoves(run: seq<State>, i: nat, m: nat, t: nat, op: Op)
    requires IsRun(run) && i <= m && m + 1 < |run| && Story(run, i, m, t, op) && Inv(run[m])
    requires InnerStep(run[m], t, run[m + 1])
    requires !op.Insert? ==> t < |run[i].threads| && BeginsLookup(run[i].threads[t], op.Target())
    ensures Story(run, i, m + 1, t, op)
  {
    RunTable(run, m);
    if Verdict(run[m].threads[t]).Some? {
      DecidedMoves(run, i, m, t, op);
    } else if CommitStep(run[m], t, run[m + 1]) {
      CommitMoves(run, i, m, t, op);
    } else if ReserveStep(run[m], t, run[m + 1]) {
      ReserveMoves(run, i, m, t, op);
    } else if LookupStep(run[m], t, run[m + 1]) {
      if run[m].threads[t].pc.Found? {
        FoundMoves(run, i, m, t, op);
      } else {
        NotFoundMoves(run, i, m, t, op);
      }
    } else {
      EraseVerdict(run[m], t, run[m + 1]);
      assert false;
    }
  }

  // ----- whole operations -----

  /** Thread t begins an operation with the step to state i and ends it with the step to
      state j. */
  predicate Operation(run: seq<State>, i: nat, j: nat, t: nat) {
    && 0 < i < j < |run|
    && (forall m :: i - 1 <= m <= j ==> t < |run[m].threads|)
    && run[i - 1].threads[t].pc.Outside? && run[j].threads[t].pc.Outside?
    && forall m :: i <= m < j ==> !run[m].threads[t].pc.Outside?
  }

  lemma OperationBegins(run: seq<State>, i: nat, j: nat, t: nat)
    requires IsRun(run) && Operation(run, i, j, t)
    ensures run[i].threads[t].pc.ReadCounter? || BeginsLookup(run[i].threads[t], run[i].threads[t].op.Target())
    ensures run[i].threads[t].pc.ReadCounter? <==> run[i].threads[t].op.Insert?
  {
    RunStep(run, i);
    var s, s' := run[i - 1], run[i];
    var u :| 0 <= u < |s.threads| && Step(s, u, s');
    SameThreads(s, u, s');
    assert u == t && !InnerStep(s, t, s');
  }

  lemma {:induction false} OperationStory(run: seq<State>, i: nat, j: nat, t: nat, m: nat)
    requires IsRun(run) && Operation(run, i, j, t) && i <= m <= j
    ensures Story(run, i, m, t, run[i].threads[t].op)
    decreases m
  {
    OperationBegins(run, i, j, t);
    if m > i {
      OperationStory(run, i, j, t, m - 1);
      StoryStep(run, i, m - 1, t, run[i].threads[t].op);
    }
  }

  /** In every run, each finished visit, insertion or erasure has a moment between its
      beginning and its end at which a plain map would have given its answer, values
      included. If it changes the map, it is itself the step that does so at that moment;
      at no other step does an operation's own thread change it. */
  lemma EveryOperationLinearizes(run: seq<State>, i: nat, j: nat, t: nat)
    requires IsRun(run) && Operation(run, i, j, t)
    ensures run[j].threads[t].op == run[i].threads[t].op
    ensures Linearized(run, i, j, t, run[i].threads[t].op, run[j].threads[t].pc.reply)
  {
    OperationStory(run, i, j, t, j);
  }

  /** Nothing else changes the map, but for clearing it while nobody is inside. */
  lemma TableChangesByEffects(run: seq<State>, m: nat) returns (t: nat)
    requires IsRun(run) && m + 1 < |run| && !TableStays(run, m)
    ensures t < |run[m].threads|
    ensures (run[m + 1].table == map[] && run[m].threads[t].pc.Outside? && AloneOutside(run[m], t))
      || (Moves(run, m, t) && run[m + 1].table == Apply(run[m].table, run[m].threads[t].op).0)
  {
    RunInv(run, m);
    RunTable(run, m);
    RunNext(run, m + 1);
    var s, s' := run[m], run[m + 1];
    t :| 0 <= t < |s.threads| && Step(s, t, s');
    if InnerStep(s, t, s') {
      ChangeIsEffect(s, t, s');
    } else {
      ExclusiveChange(s, t, s');
    }
  }

  lemma ExclusiveChange(s: State, t: nat, s': State)
    requires Shape(s) && t < |s.threads| && ExclusiveStep(s, t, s') && s'.table != s.table
    ensures s'.table == map[] && s.threads[t].pc.Outside? && AloneOutside(s, t)
  {
  }

  lemma ChangeIsEffect(s: State, t: nat, s': State)
    requires Inv(s) && TableOk(s) && t < |s.threads| && InnerStep(s, t, s') && s'.table != s.table
    ensures t < |s'.threads| && s'.threads[t] != s.threads[t] && s'.table == Apply(s.table, s.threads[t].op).0
  {
    if Commits(s, t) {
      CommitIsFirst(s, t);
      CommitDecides(s, t, s');
    } else if s.threads[t].pc.Found? {
      FoundInTable(s, t);
      FoundDecides(s, t, s');
    } else {
      OthersKeepTable(s, t, s');
    }
  }

  // ----- lookups end -----

  /** A bound on the steps left to a lookup: at most 33 for each group. */
  function Effort(groups: nat, pc: Pc): int {
    match pc
    case Match(i, _, j, _, _) => 33 * (groups - 1 - i) + (15 - j) + 18
    case Acquire(i, _, _, _) => 33 * (groups - 1 - i) + 17
    case Scan(i, _, mask, _) => 33 * (groups - 1 - i) + 1 + |mask|
    case CheckOverflow(i, _, _) => 33 * (groups - 1 - i) + 1
    case _ => 0
  }

  lemma MaskSize(mask: set<nat>)
    requires SlotMask(mask, 15)
    ensures |mask| <= 15
  {
    SubsetSize(mask, Below(15));
  }

  lemma EffortBounds(a: Arrays, th: Thread)
    requires a.WellFormed() && PcShape(a, th) && Looking(th.pc)
    ensures 1 <= Effort(|a.over|, th.pc) <= 33 * |a.over|
  {
    if th.pc.Scan? {
      MaskSize(th.pc.mask);
    }
  }

  lemma LookupShrinks(s: State, t: nat, s': State)
    requires Shape(s) && t < |s.threads| && LookupStep(s, t, s') && Looking(s.threads[t].pc)
    requires t < |s'.threads| && Looking(s'.threads[t].pc)
    ensures Effort(|s.arr.over|, s'.threads[t].pc) < Effort(|s.arr.over|, s.threads[t].pc)
  {
    assert PcShape(s.arr, s.threads[t]);
    if s.threads[t].pc.Acquire? {
      MaskSize(s.threads[t].pc.mask);
    }
  }

  /** How many of the steps from state i to state j are thread t's. */
  ghost function OwnSteps(run: seq<State>, i: nat, j: nat, t: nat): nat
    requires j < |run|
    decreases j
  {
    if j <= i then 0 else OwnSteps(run, i, j - 1, t) + if Moves(run, j - 1, t) then 1 else 0
  }

  lemma OwnEffort(s: State, t: nat, s': State)
    requires Shape(s) && t < |s.threads| && InnerStep(s, t, s') && Looking(s.threads[t].pc)
    requires t < |s'.threads| && Looking(s'.threads[t].pc)
    ensures |s'.arr.over| == |s.arr.over|
    ensures Effort(|s.arr.over|, s'.threads[t].pc) < Effort(|s.arr.over|, s.threads[t].pc)
  {
    InnerQuiet(s, t, s');
    LookupShrinks(s, t, s');
  }

  lemma OthersEffort(s: State, u: nat, s': State, t: nat)
    requires Shape(s) && u < |s.threads| && t < |s.threads| && u != t && Looking(s.threads[t].pc)
    requires InnerStep(s, u, s') || ExclusiveStep(s, u, s')
    ensures t < |s'.threads| && s'.threads[t] == s.threads[t] && |s'.arr.over| == |s.arr.over|
  {
    if InnerStep(s, u, s') {
      InnerQuiet(s, u, s');
    } else {
      assert !AloneOutside(s, u);
    }
  }

  lemma StepWhileLooking(s: State, s': State, t: nat)
    requires Shape(s) && Next(s, s') && t < |s.threads| && Looking(s.threads[t].pc)
    requires t < |s'.threads| && Looking(s'.threads[t].pc)
    ensures |s'.arr.over| == |s.arr.over|
    ensures Effort(|s.arr.over|, s'.threads[t].pc) + (if s.threads[t] != s'.threads[t] then 1 else 0)
      <= Effort(|s.arr.over|, s.threads[t].pc)
  {
    var u :| 0 <= u < |s.threads| && Step(s, u, s');
    if u == t {
      OwnEffort(s, t, s');
    } else {
      OthersEffort(s, u, s', t);
    }
  }

  lemma StepSpends(run: seq<State>, j: nat, t: nat)
    requires IsRun(run) && 0 < j < |run| && LookingSince(run, j - 1, j, t)
    ensures |run[j].arr.over| == |run[j - 1].arr.over|
    ensures Effort(|run[j].arr.over|, run[j].threads[t].pc) + (if Moves(run, j - 1, t) then 1 else 0)
      <= Effort(|run[j].arr.over|, run[j - 1].threads[t].pc)
  {
    RunInv(run, j - 1);
    RunNext(run, j);
    assert Looking(run[j - 1].threads[t].pc) && Looking(run[j].threads[t].pc);
    StepWhileLooking(run[j - 1], run[j], t);
  }

  lemma {:induction false} EffortSpent(run: seq<State>, i: nat, j: nat, t: nat)
    requires IsRun(run) && i <= j < |run| && LookingSince(run, i, j, t)
    ensures |run[j].arr.over| == |run[i].arr.over|
    ensures Effort(|run[i].arr.over|, run[j].threads[t].pc) + OwnSteps(run, i, j, t)
      <= Effort(|run[i].arr.over|, run[i].threads[t].pc)
    decreases j
  {
    if i < j {
      EffortSpent(run, i, j - 1, t);
      StepSpends(run, j, t);
    }
  }

  lemma {:induction false} FirstStop(run: seq<State>, i: nat, j: nat, t: nat) returns (m: nat)
    requires i <= j < |run| && t < |run[i].threads| && Looking(run[i].threads[t].pc)
    requires !LookingSince(run, i, j, t)
    ensures i < m <= j && LookingSince(run, i, m - 1, t)
    ensures t >= |run[m].threads| || !Looking(run[m].threads[t].pc)
    decreases j
  {
    if i < j && !LookingSince(run, i, j - 1, t) {
      m := FirstStop(run, i, j - 1, t);
    } else {
      m := j;
    }
  }

  /** A lookup of a key that stays present finds it within 33 of its own steps for each
      group, whatever the other threads do and in whatever order. */
  lemma PresentKeyIsFound(run: seq<State>, i: nat, j: nat, t: nat, k: Key) returns (m: nat)
    requires IsRun(run) && i <= j < |run|
    requires t < |run[i].threads| && BeginsLookup(run[i].threads[t], k)
    requires forall q :: i <= q <= j ==> k in Keys(run[q])
    requires OwnSteps(run, i, j, t) >= 33 * |run[i].arr.over|
    ensures i < m <= j && LookingSince(run, i, m - 1, t)
    ensures t < |run[m].threads| && run[m].threads[t].pc.Found?
  {
    if LookingSince(run, i, j, t) {
      RunInv(run, i);
      RunInv(run, j);
      EffortSpent(run, i, j, t);
      EffortBounds(run[i].arr, run[i].threads[t]);
      EffortBounds(run[j].arr, run[j].threads[t]);
      assert false;
    }
    m := FirstStop(run, i, j, t);
    LookupMissesNothing(run, i, m, t, k);
  }
}
