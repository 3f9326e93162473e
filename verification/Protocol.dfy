/** The optimistic insertion protocol of the concurrent table as a step machine:
    any number of threads, each a program counter over atomic actions, run visits,
    insertions and erasures against shared arrays. Group locks are not stored: a
    lock action is enabled when no other thread's program counter holds a
    conflicting lock on the group. */
module Protocol {
  import opened Probing
  import opened Tables
  import opened TableModel

  /** An operation with its callbacks: what they make of the mapped value they are shown,
      given write access; an insertion has one for its own element and one for an
      element it finds. */
  datatype Op =
    | Visit(key: Key, update: int -> int, exclusive: bool)
    | Insert(elem: Elem, initial: int -> int, update: int -> int, exclusive: bool)
    | Erase(key: Key)
  {
    function Target(): Key { if Insert? then elem.key else key }

    predicate LocksExclusively() { Erase? || exclusive }
  }

  /** What an operation returns, and the mapped value that its callback was shown. */
  datatype Reply = Reply(count: nat, seen: Option<int>)

  /** Where a thread is. `i` counts the prober's steps and `g` is its position; `c` is
      the recorded insertion counter; `x` is a slot index. */
  datatype Pc =
    | Outside(reply: Reply)                                 // holds no lock at all
    | ReadCounter                                           // insertion: start over
    | Match(i: nat, g: nat, j: nat, mask: set<nat>, c: nat) // reading slot byte j
    | Acquire(i: nat, g: nat, mask: set<nat>, c: nat)
    | Scan(i: nat, g: nat, mask: set<nat>, c: nat)          // holds the group
    | CheckOverflow(i: nat, g: nat, c: nat)
    | Found(x: nat)                                         // holds the group
    | EraseLoad(x: nat)                                     // element destroyed
    | EraseReset(x: nat, d: nat)                            // load limit lowered by d
    | EraseCount(x: nat, d: nat)                            // slot reset
    | Leave(g: nat, exclusive: bool, reply: Reply)          // about to unlock
    | ReserveSize(c: nat)
    | CheckSize(c: nat, reserved: int)
    | GiveBack                                              // reservation refused
    | AcquireSlot(i: nat, g: nat, c: nat)
    | PickSlot(i: nat, g: nat, c: nat)                      // holds the group
    | Overflowed(i: nat, g: nat, c: nat)                    // overflow bit marked
    | Bump(i: nat, x: nat, c: nat)                          // slot tentatively set
    | Undo(x: nat)                                          // counter had moved
    | UndoRelease(x: nat)
    | UndoSize
    | Construct(x: nat)                                     // counter matched
    | Inserted(x: nat)
    | Full                                                  // holds no lock, wants a rehash
    | Reenter                                               // holds no lock, will start over

  datatype Thread = Thread(op: Op, pc: Pc)

  /** `claim` and `table` are history variables, which no step reads but to go on with
      them: the key for which a slot was won at the insertion counter, until its element
      is destroyed; and the map that the operations done so far amount to. */
  datatype State = State(
    arr: Arrays, count: seq<nat>, claim: seq<Option<Key>>, table: map<Key, int>, size: int, ml: int,
    threads: seq<Thread>)

  datatype Lock = Free | Shared(g: nat) | Exclusive(g: nat)

  /** The group lock a thread holds; never more than one. */
  function Held(th: Thread): Lock {
    match th.pc
    case Scan(_, g, _, _) => if th.op.LocksExclusively() then Exclusive(g) else Shared(g)
    case Found(x) => if th.op.LocksExclusively() then Exclusive(x / 15) else Shared(x / 15)
    case Leave(g, exclusive, _) => if exclusive then Exclusive(g) else Shared(g)
    case EraseLoad(x) => Exclusive(x / 15)
    case EraseReset(x, _) => Exclusive(x / 15)
    case EraseCount(x, _) => Exclusive(x / 15)
    case PickSlot(_, g, _) => Exclusive(g)
    case Overflowed(_, g, _) => Exclusive(g)
    case Bump(_, x, _) => Exclusive(x / 15)
    case Undo(x) => Exclusive(x / 15)
    case UndoRelease(x) => Exclusive(x / 15)
    case Construct(x) => Exclusive(x / 15)
    case Inserted(x) => Exclusive(x / 15)
    case _ => Free
  }

  predicate Compatible(a: Lock, b: Lock) {
    a.Free? || b.Free? || a.g != b.g || (a.Shared? && b.Shared?)
  }

  /** Can thread t take lock `want` now? */
  predicate Grantable(s: State, t: nat, want: Lock) {
    forall u :: 0 <= u < |s.threads| && u != t ==> Compatible(want, Held(s.threads[u]))
  }

  /** Between accesses to the container. */
  predicate Apart(pc: Pc) { pc.Outside? || pc.Full? || pc.Reenter? }

  /** No thread but t is inside the container: t can have it exclusively. */
  predicate AloneOutside(s: State, t: nat) {
    forall u :: 0 <= u < |s.threads| && u != t ==> Apart(s.threads[u].pc)
  }

  // ----- well-formed states -----

  ghost predicate Walks(a: Arrays, key: Key, i: nat, g: nat)
    requires a.WellFormed()
  {
    g == PathAt(a, key, i)
  }

  predicate SlotMask(mask: set<nat>, j: nat) {
    j <= 15 && forall n :: n in mask ==> n < j
  }

  ghost predicate PcShape(a: Arrays, th: Thread)
    requires a.WellFormed()
  {
    var key := th.op.Target();
    match th.pc
    case Outside(_) => true
    case Match(i, g, j, mask, c) => Walks(a, key, i, g) && i < |a.over| && SlotMask(mask, j)
    case Acquire(i, g, mask, c) => Walks(a, key, i, g) && i < |a.over| && SlotMask(mask, 15) && mask != {}
    case Scan(i, g, mask, c) => Walks(a, key, i, g) && i < |a.over| && SlotMask(mask, 15) && mask != {}
    case CheckOverflow(i, g, c) => Walks(a, key, i, g) && i < |a.over|
    case Found(x) => x < |a.slots|
    case EraseLoad(x) => x < |a.slots|
    case EraseReset(x, d) => x < |a.slots| && d <= 1
    case EraseCount(x, d) => x < |a.slots| && d <= 1
    case Leave(g, _, _) => g < |a.over|
    case AcquireSlot(i, g, c) => Walks(a, key, i, g) && th.op.Insert?
    case PickSlot(i, g, c) => Walks(a, key, i, g) && th.op.Insert?
    case Overflowed(i, g, c) => Walks(a, key, i, g) && th.op.Insert?
    case Bump(i, x, c) => x < |a.slots| && Walks(a, key, i, x / 15) && th.op.Insert?
    case Undo(x) => x < |a.slots| && th.op.Insert?
    case UndoRelease(x) => x < |a.slots| && th.op.Insert?
    case Construct(x) => x < |a.slots| && th.op.Insert?
    case Inserted(x) => x < |a.slots| && th.op.Insert?
    case _ => th.op.Insert?
  }

  ghost predicate Shape(s: State) {
    && s.arr.WellFormed()
    && |s.count| == |s.arr.over|
    && |s.claim| == |s.arr.slots|
    && forall t :: 0 <= t < |s.threads| ==> PcShape(s.arr, s.threads[t])
  }

  // ----- the steps -----

  function Become(s: State, t: nat, pc: Pc): State
    requires t < |s.threads|
  {
    s.(threads := s.threads[t := s.threads[t].(pc := pc)])
  }

  function SetSlot(s: State, x: nat, slot: Slot): State
    requires x < |s.arr.slots|
  {
    s.(arr := s.arr.(slots := s.arr.slots[x := slot]))
  }

  function SetClaim(s: State, x: nat, k: Option<Key>): State
    requires x < |s.claim|
  {
    s.(claim := s.claim[x := k])
  }

  function MarkGroup(s: State, g: nat, key: Key): State
    requires g < |s.arr.over|
  {
    s.(arr := s.arr.(over := s.arr.over[g := s.arr.over[g] + {key.hash % 8}]))
  }

  /** One more insertion from home group g. */
  function Counted(s: State, g: nat): State
    requires g < |s.count|
  {
    s.(count := s.count[g := s.count[g] + 1])
  }

  function SetTable(s: State, table: map<Key, int>): State {
    s.(table := table)
  }

  function Updated(table: map<Key, int>, key: Key, update: int -> int): map<Key, int> {
    if key in table then table[key := update(table[key])] else table
  }

  function ValueIn(slot: Slot): int { if slot.elem.Some? then slot.elem.value.val else 0 }

  predicate Least(n: nat, mask: set<nat>) {
    n in mask && forall m :: m in mask ==> n <= m
  }

  /** Visiting: match, lock, double-check, compare, follow the overflow bit. */
  ghost predicate LookupStep(s: State, t: nat, s': State)
    requires Shape(s) && t < |s.threads|
  {
    var th := s.threads[t];
    var key := th.op.Target();
    match th.pc
    case Match(i, g, j, mask, c) =>
      if j < 15 then
        var hit := s.arr.slots[15 * g + j].meta == ReducedHash(key.hash);
        s' == Become(s, t, Match(i, g, j + 1, if hit then mask + {j} else mask, c))
      else
        s' == Become(s, t, if mask == {} then CheckOverflow(i, g, c) else Acquire(i, g, mask, c))
    case Acquire(i, g, mask, c) =>
      && s' == Become(s, t, Scan(i, g, mask, c))
      && Grantable(s, t, Held(s'.threads[t]))
    case Scan(i, g, mask, c) =>
      exists n :: Least(n, mask) &&
        var x := 15 * g + n;
        var slot := s.arr.slots[x];
        if slot.meta != AVAILABLE && KeyIn(slot) == Some(key) then
          s' == Become(s, t, Found(x))
        else
          s' == Become(s, t, if mask == {n} then CheckOverflow(i, g, c) else Scan(i, g, mask - {n}, c))
    case CheckOverflow(i, g, c) =>
      s' == Become(s, t,
        if key.hash % 8 in s.arr.over[g] && i + 1 < |s.arr.over| then
          Match(i + 1, Masked(g + (i + 1), |s.arr.over|), 0, {}, c)
        else if th.op.Insert? then ReserveSize(c)
        else Outside(Reply(0, None)))
    case Found(x) =>
      var value := ValueIn(s.arr.slots[x]);
      var reply := Reply(if th.op.Insert? then 0 else 1, Some(value));
      if th.op.Erase? then
        s' == Become(SetTable(SetClaim(SetSlot(s, x, s.arr.slots[x].(elem := None)), x, None), s.table - {key}), t,
                     EraseLoad(x))
      else if th.op.LocksExclusively() then // the callback may assign the mapped value
        s' == Become(SetTable(SetSlot(s, x, s.arr.slots[x].(elem := Some(Elem(key, th.op.update(value))))),
                              Updated(s.table, key, th.op.update)), t, Leave(x / 15, true, reply))
      else
        s' == Become(s, t, Leave(x / 15, false, reply))
    case Leave(_, _, reply) =>
      s' == Become(s, t, Outside(reply))
    case _ => false
  }

  /** Erasing the element found: lower the load limit if the slot may have caused
      overflow, reset the slot, lower the size. */
  ghost predicate EraseStep(s: State, t: nat, s': State)
    requires Shape(s) && t < |s.threads|
  {
    match s.threads[t].pc
    case EraseLoad(x) =>
      var d := if s.arr.slots[x].meta % 8 in s.arr.over[x / 15] then 1 else 0;
      s' == Become(s, t, EraseReset(x, d)).(ml := s.ml - d)
    case EraseReset(x, d) =>
      s' == Become(SetSlot(s, x, s.arr.slots[x].(meta := AVAILABLE)), t, EraseCount(x, d))
    case EraseCount(x, d) =>
      s' == Become(s, t, Leave(x / 15, true, Reply(1, None))).(size := s.size - 1)
    case _ => false
  }

  /** Reserving: size first, then a slot group by group. */
  ghost predicate ReserveStep(s: State, t: nat, s': State)
    requires Shape(s) && t < |s.threads|
  {
    var th := s.threads[t];
    var key := th.op.Target();
    var home := Home(s.arr.bits, key);
    assert PcShape(s.arr, th) && home < |s.count|;
    match th.pc
    case ReadCounter =>
      s' == Become(s, t, Match(0, home, 0, {}, s.count[home]))
    case ReserveSize(c) =>
      s' == Become(s, t, CheckSize(c, s.size + 1)).(size := s.size + 1)
    case CheckSize(c, reserved) =>
      s' == Become(s, t, if reserved <= s.ml then AcquireSlot(0, home, c) else GiveBack)
    case GiveBack =>
      s' == Become(s, t, Full).(size := s.size - 1)
    case AcquireSlot(i, g, c) =>
      s' == Become(s, t, PickSlot(i, g, c)) && Grantable(s, t, Exclusive(g))
    case PickSlot(i, g, c) =>
      if GroupFull(s.arr, g) then
        s' == Become(MarkGroup(s, g, key), t, Overflowed(i, g, c))
      else
        exists x :: FirstAvailable(s.arr, g, x) &&
          s' == Become(SetSlot(s, x, Slot(ReducedHash(key.hash), None)), t, Bump(i, x, c))
    case Overflowed(i, g, c) =>
      s' == Become(s, t, AcquireSlot(i + 1, Masked(g + (i + 1), |s.arr.over|), c))
    case _ => false
  }

  /** Committing or rolling back, decided by one atomic increment of the home group's
      insertion counter. */
  ghost predicate CommitStep(s: State, t: nat, s': State)
    requires Shape(s) && t < |s.threads|
  {
    var th := s.threads[t];
    var key := th.op.Target();
    var home := Home(s.arr.bits, key);
    assert PcShape(s.arr, th) && home < |s.count|;
    match th.pc
    case Bump(_, x, c) =>
      if s.count[home] == c then
        s' == Become(SetTable(SetClaim(Counted(s, home), x, Some(key)), s.table[key := th.op.initial(th.op.elem.val)]),
                     t, Construct(x))
      else
        s' == Become(Counted(s, home), t, Undo(x))
    case Undo(x) =>
      s' == Become(SetSlot(s, x, s.arr.slots[x].(meta := AVAILABLE)), t, UndoRelease(x))
    case UndoRelease(x) =>
      s' == Become(s, t, UndoSize)
    case UndoSize =>
      s' == Become(s, t, ReadCounter).(size := s.size - 1)
    case Construct(x) =>
      s' == Become(SetSlot(s, x, s.arr.slots[x].(elem := Some(th.op.elem))), t, Inserted(x))
    case Inserted(x) => // the callback may assign the mapped value
      var value := ValueIn(s.arr.slots[x]);
      s' == Become(SetSlot(s, x, s.arr.slots[x].(elem := Some(Elem(key, th.op.initial(value))))), t,
                   Leave(x / 15, true, Reply(1, Some(value))))
    case _ => false
  }

  /** Entering the container, and container-wide actions, taken while no other thread is
      inside. */
  ghost predicate ExclusiveStep(s: State, t: nat, s': State)
    requires Shape(s) && t < |s.threads|
  {
    match s.threads[t].pc
    case Outside(_) => // begin an operation, or clear the table
      || (exists op: Op :: s' == s.(threads := s.threads[t := Thread(op,
            if op.Insert? then ReadCounter else Match(0, Home(s.arr.bits, op.Target()), 0, {}, 0))]))
      || (AloneOutside(s, t) && (
            if s.arr.dummy then s' == s else
            && Wiped(s.arr, s'.arr)
            && s' == State(s'.arr, s.count, seq(|s.claim|, _ => None), map[], 0,
                           InitialMaxLoad(s.arr.Capacity()), s.threads)))
    case Full => // rehash_if_full
      && AloneOutside(s, t)
      && (if s.size == s.ml then
            && Regrown(s.arr, s.size, s'.arr)
            && s' == Become(State(
                 s'.arr, seq(|s'.arr.over|, _ => 0),
                 seq(|s'.arr.slots|, x requires 0 <= x < |s'.arr.slots| => KeyIn(s'.arr.slots[x])), s.table,
                 s.size, InitialMaxLoad(s'.arr.Capacity()), s.threads), t, Reenter)
          else
            s' == Become(s, t, Reenter))
    case Reenter => // whatever happened to the table meanwhile
      s' == Become(s, t, ReadCounter)
    case _ => false
  }

  ghost predicate Step(s: State, t: nat, s': State)
    requires Shape(s) && t < |s.threads|
  {
    || LookupStep(s, t, s') || EraseStep(s, t, s') || ReserveStep(s, t, s') || CommitStep(s, t, s')
    || ExclusiveStep(s, t, s')
  }
}
