/** An operation of the concurrent table that nobody disturbs does to the arrays, the size
    and the load limit just what the sequential table does. */
module ProtocolRefinement {
  import opened Probing
  import opened Tables
  import opened TableModel
  import opened TableCore
  import opened Protocol
  import opened ProtocolInvariant
  import opened ProtocolAccounts
  import opened ProtocolTheorems
  import opened ProtocolTable
  import opened ProtocolLinearization
  import opened ProtocolSolo

  // ----- what the sequential table would do -----

  ghost predicate Untouched(b: State, s: State) {
    s.arr == b.arr && s.size == b.size && s.ml == b.ml
  }

  /** The element with this key, in slot x, has got the value that the callback assigns. */
  ghost predicate UpdatedAt(b: State, s: State, x: nat, key: Key, update: int -> int) {
    && x < |b.arr.slots| && KeyIn(b.arr.slots[x]) == Some(key)
    && s.arr == PutSlot(b.arr, x, b.arr.slots[x].(elem := Some(Elem(key, update(b.arr.slots[x].elem.value.val)))))
    && s.size == b.size && s.ml == b.ml
  }

  function Owed(a: Arrays, x: nat, key: Key): int
    requires x / 15 < |a.over|
  {
    if key.hash % 8 in a.over[x / 15] then 1 else 0
  }

  /** The element with this key, in slot x, is gone, and the load limit is lowered by one
      exactly if its overflow bit is set in its group. */
  ghost predicate ErasedAt(b: State, s: State, x: nat, key: Key) {
    && x < |b.arr.slots| && x / 15 < |b.arr.over| && KeyIn(b.arr.slots[x]) == Some(key)
    && s.arr == PutSlot(b.arr, x, Slot(AVAILABLE, None))
    && s.size == b.size - 1 && s.ml == b.ml - Owed(b.arr, x, key)
  }

  /** The element is in slot x, where the table has room for it. */
  ghost predicate InsertedAt(b: State, s: State, x: nat, e: Elem) {
    b.size < b.ml && Placed(b.arr, e, x, s.arr) && s.size == b.size + 1 && s.ml == b.ml
  }

  ghost predicate Updates(b: State, s: State, key: Key, update: int -> int) {
    exists x :: UpdatedAt(b, s, x, key, update)
  }

  ghost predicate Erases(b: State, s: State, key: Key) {
    exists x :: ErasedAt(b, s, x, key)
  }

  ghost predicate Inserts(b: State, s: State, e: Elem) {
    exists x :: InsertedAt(b, s, x, e)
  }

  /** What the operation has made of state b by state s, given its reply. */
  ghost predicate Sequential(b: State, s: State, op: Op, reply: Reply) {
    match op
    case Visit(key, update, exclusive) =>
      if reply.count == 1 && exclusive then Updates(b, s, key, update) else Untouched(b, s)
    case Insert(elem, initial, update, exclusive) =>
      if reply.count == 1 then Inserts(b, s, Elem(elem.key, initial(elem.val)))
      else if exclusive then Updates(b, s, elem.key, update)
      else Untouched(b, s)
    case Erase(key) =>
      if reply.count == 1 then Erases(b, s, key) else Untouched(b, s)
  }

  // ----- on the way -----

  /** The element is in its slot but for the element itself. */
  ghost predicate Tentatively(a: Arrays, e: Elem, x: nat, b: Arrays) {
    && x < |b.slots| && b.slots[x] == Slot(ReducedHash(e.key.hash), None)
    && Placed(a, e, x, PutSlot(b, x, Slot(ReducedHash(e.key.hash), Some(e))))
  }

  /** One more than at b has been reserved, within the limit. */
  predicate Granted(b: State, s: State) {
    b.size < b.ml && s.size == b.size + 1 && s.ml == b.ml
  }

  predicate Counters(b: State, s: State, th: Thread) {
    && s.count == b.count
    && (Recorded(th).Some? ==>
         && b.arr.bits <= 64 && |b.count| == Pow2(b.arr.bits)
         && Recorded(th).value == b.count[Home(b.arr.bits, th.op.Target())])
  }

  /** How far thread t's operation, at its beginning in state b, has come in state s. */
  ghost predicate Follows(b: State, s: State, t: nat) {
    && t < |s.threads| && t < |b.threads| && s.threads[t].op == b.threads[t].op && b.arr.WellFormed()
    && var th := s.threads[t];
       var op, key := th.op, th.op.Target();
       match th.pc
       case Outside(reply) => Sequential(b, s, op, reply)
       case Leave(_, _, reply) => Sequential(b, s, op, reply)
       case Found(x) => Untouched(b, s)
       case EraseLoad(x) =>
         && op.Erase? && x < |b.arr.slots| && KeyIn(b.arr.slots[x]) == Some(key)
         && s.arr == PutSlot(b.arr, x, b.arr.slots[x].(elem := None)) && s.size == b.size && s.ml == b.ml
       case EraseReset(x, d) =>
         && op.Erase? && x < |b.arr.slots| && x / 15 < |b.arr.over| && KeyIn(b.arr.slots[x]) == Some(key)
         && s.arr == PutSlot(b.arr, x, b.arr.slots[x].(elem := None))
         && s.size == b.size && s.ml == b.ml - d && d == Owed(b.arr, x, key)
       case EraseCount(x, d) =>
         && op.Erase? && x < |b.arr.slots| && x / 15 < |b.arr.over| && KeyIn(b.arr.slots[x]) == Some(key)
         && s.arr == PutSlot(b.arr, x, Slot(AVAILABLE, None))
         && s.size == b.size && s.ml == b.ml - d && d == Owed(b.arr, x, key)
       case CheckSize(_, reserved) =>
         s.arr == b.arr && s.size == b.size + 1 == reserved && s.ml == b.ml && Counters(b, s, th)
       case GiveBack => s.arr == b.arr && s.size == b.size + 1 && s.ml == b.ml && b.size >= b.ml
       case Full => Untouched(b, s) && b.size >= b.ml
       case AcquireSlot(i, g, _) => Granted(b, s) && Counters(b, s, th) && Searching(b.arr, s.arr, key, g, i)
       case PickSlot(i, g, _) => Granted(b, s) && Counters(b, s, th) && Searching(b.arr, s.arr, key, g, i)
       case Overflowed(i, g, _) =>
         && Granted(b, s) && Counters(b, s, th)
         && Searching(b.arr, s.arr, key, Masked(g + (i + 1), |b.arr.over|), i + 1)
       case Bump(_, x, _) =>
         op.Insert? && Granted(b, s) && Counters(b, s, th) && Tentatively(b.arr, op.elem, x, s.arr)
       case Construct(x) => op.Insert? && Granted(b, s) && Tentatively(b.arr, op.elem, x, s.arr)
       case Inserted(x) => op.Insert? && Granted(b, s) && Placed(b.arr, op.elem, x, s.arr)
       case Undo(_) => false
       case UndoRelease(_) => false
       case UndoSize => false
       case _ => Untouched(b, s) && (op.Insert? ==> Counters(b, s, th))
  }

  // ----- lookups -----

  lemma LookingFollows(b: State, s: State, t: nat, s': State)
    requires Shape(s) && Follows(b, s, t) && LookupStep(s, t, s') && Looking(s.threads[t].pc)
    ensures Follows(b, s', t)
  {
    if s.threads[t].pc.Scan? {
      ScanFollows(b, s, t, s');
    } else {
      PlainLookFollows(b, s, t, s');
    }
  }

  lemma ScanResult(s: State, t: nat, s': State)
    requires Shape(s) && t < |s.threads| && LookupStep(s, t, s') && s.threads[t].pc.Scan?
    ensures t < |s'.threads| && Untouched(s, s') && s'.count == s.count && s'.threads[t].op == s.threads[t].op
    ensures s'.threads[t].pc.Found? || s'.threads[t].pc.Scan? || s'.threads[t].pc.CheckOverflow?
    ensures !s'.threads[t].pc.Found? ==> Recorded(s'.threads[t]) == Recorded(s.threads[t])
  {
  }

  lemma ScanFollows(b: State, s: State, t: nat, s': State)
    requires Shape(s) && Follows(b, s, t) && LookupStep(s, t, s') && s.threads[t].pc.Scan?
    ensures Follows(b, s', t)
  {
    ScanResult(s, t, s');
  }

  lemma PlainLookFollows(b: State, s: State, t: nat, s': State)
    requires Shape(s) && Follows(b, s, t) && LookupStep(s, t, s') && Looking(s.threads[t].pc) && !s.threads[t].pc.Scan?
    ensures Follows(b, s', t)
  {
  }

  lemma LeaveFollows(b: State, s: State, t: nat, s': State)
    requires Shape(s) && Follows(b, s, t) && LookupStep(s, t, s') && s.threads[t].pc.Leave?
    ensures Follows(b, s', t)
  {
    SequentialSame(b, s, s', s.threads[t].op, s.threads[t].pc.reply);
  }

  lemma SequentialSame(b: State, s: State, s': State, op: Op, reply: Reply)
    requires Sequential(b, s, op, reply) && Untouched(s, s')
    ensures Sequential(b, s', op, reply)
  {
    match op
    case Visit(key, update, exclusive) => UpdatesSame(b, s, s', key, update);
    case Insert(elem, initial, update, exclusive) =>
      UpdatesSame(b, s, s', elem.key, update);
      if x :| InsertedAt(b, s, x, Elem(elem.key, initial(elem.val))) {
        assert InsertedAt(b, s', x, Elem(elem.key, initial(elem.val)));
      }
    case Erase(key) =>
      if x :| ErasedAt(b, s, x, key) {
        assert ErasedAt(b, s', x, key);
      }
  }

  lemma UpdatesSame(b: State, s: State, s': State, key: Key, update: int -> int)
    requires Untouched(s, s')
    ensures Updates(b, s, key, update) ==> Updates(b, s', key, update)
  {
    if x :| UpdatedAt(b, s, x, key, update) {
      assert UpdatedAt(b, s', x, key, update);
    }
  }

  lemma FoundFollows(b: State, s: State, t: nat, s': State)
    requires Shape(s) && Follows(b, s, t) && LookupStep(s, t, s') && s.threads[t].pc.Found?
    requires s.threads[t].pc.x < |s.arr.slots|
    requires KeyIn(s.arr.slots[s.threads[t].pc.x]) == Some(s.threads[t].op.Target())
    ensures Follows(b, s', t)
  {
    var op, x := s.threads[t].op, s.threads[t].pc.x;
    if op.LocksExclusively() && !op.Erase? {
      assert UpdatedAt(b, s', x, op.Target(), op.update);
    }
  }

  // ----- erasing -----

  lemma LoadFollows(b: State, s: State, t: nat, s': State)
    requires Shape(s) && Follows(b, s, t) && EraseStep(s, t, s') && s.threads[t].pc.EraseLoad?
    requires PcShape(s.arr, s.threads[t]) && WorkOk(s, s.threads[t])
    ensures Follows(b, s', t)
  {
  }

  lemma ResetFollows(b: State, s: State, t: nat, s': State)
    requires Shape(s) && Follows(b, s, t) && EraseStep(s, t, s') && s.threads[t].pc.EraseReset?
    ensures Follows(b, s', t)
  {
  }

  lemma EraseFollows(b: State, s: State, t: nat, s': State)
    requires Shape(s) && Follows(b, s, t) && EraseStep(s, t, s')
    requires PcShape(s.arr, s.threads[t]) && WorkOk(s, s.threads[t])
    ensures Follows(b, s', t)
  {
    if s.threads[t].pc.EraseLoad? {
      LoadFollows(b, s, t, s');
    } else if s.threads[t].pc.EraseReset? {
      ResetFollows(b, s, t, s');
    } else {
      assert ErasedAt(b, s', s.threads[t].pc.x, s.threads[t].op.Target());
    }
  }

  // ----- reserving -----

  lemma ReserveFollows(b: State, s: State, t: nat, s': State)
    requires Shape(s) && Follows(b, s, t) && ReserveStep(s, t, s')
    requires s.threads[t].pc.ReadCounter? || s.threads[t].pc.ReserveSize? || s.threads[t].pc.GiveBack?
    ensures Follows(b, s', t)
  {
    assert PcShape(s.arr, s.threads[t]);
  }

  lemma CheckFollows(b: State, s: State, t: nat, s': State)
    requires Shape(s) && Follows(b, s, t) && ReserveStep(s, t, s') && s.threads[t].pc.CheckSize?
    requires s.size <= s.ml ==> HasFree(s.arr)
    ensures Follows(b, s', t)
  {
    if s.size <= s.ml {
      SearchBegins(s.arr, s.threads[t].op.Target());
    }
  }

  lemma AcquireFollows(b: State, s: State, t: nat, s': State)
    requires Shape(s) && Follows(b, s, t) && ReserveStep(s, t, s')
    requires s.threads[t].pc.AcquireSlot? || s.threads[t].pc.Overflowed?
    ensures Follows(b, s', t)
  {
  }

  lemma PassResult(s: State, t: nat, s': State)
    requires Shape(s) && t < |s.threads| && ReserveStep(s, t, s') && s.threads[t].pc.PickSlot?
    requires GroupFull(s.arr, s.threads[t].pc.g)
    ensures s.threads[t].pc.g < |s.arr.over| && t < |s'.threads|
    ensures s'.arr == WithMark(s.arr, s.threads[t].pc.g, s.threads[t].op.Target())
    ensures s'.size == s.size && s'.ml == s.ml && s'.count == s.count && s'.threads[t].op == s.threads[t].op
    ensures s'.threads[t].pc == Overflowed(s.threads[t].pc.i, s.threads[t].pc.g, s.threads[t].pc.c)
  {
    assert PcShape(s.arr, s.threads[t]);
  }

  lemma PassSearches(a: Arrays, m: Arrays, key: Key, g: nat, i: nat)
    requires Searching(a, m, key, g, i) && GroupFull(m, g) && g < |m.over|
    ensures Searching(a, WithMark(m, g, key), key, Masked(g + (i + 1), |a.over|), i + 1)
  {
    MarkStep(a, m, WithMark(m, g, key), key, g, i);
  }

  lemma PassFollows(b: State, s: State, t: nat, s': State)
    requires Shape(s) && Follows(b, s, t) && ReserveStep(s, t, s') && s.threads[t].pc.PickSlot?
    requires GroupFull(s.arr, s.threads[t].pc.g)
    ensures Follows(b, s', t)
  {
    var i, g, key := s.threads[t].pc.i, s.threads[t].pc.g, s.threads[t].op.Target();
    PassResult(s, t, s');
    PickKnows(b, s, t);
    PassSearches(b.arr, s.arr, key, g, i);
    PassedFollows(b, s', t, i, g);
  }

  lemma PickKnows(b: State, s: State, t: nat)
    requires Follows(b, s, t) && s.threads[t].pc.PickSlot?
    ensures Granted(b, s) && Counters(b, s, s.threads[t])
    ensures Searching(b.arr, s.arr, s.threads[t].op.Target(), s.threads[t].pc.g, s.threads[t].pc.i)
  {
  }

  lemma PassedFollows(b: State, s: State, t: nat, i: nat, g: nat)
    requires t < |s.threads| && t < |b.threads| && s.threads[t].op == b.threads[t].op && b.arr.WellFormed()
    requires s.threads[t].pc.Overflowed? && s.threads[t].pc.i == i && s.threads[t].pc.g == g
    requires Granted(b, s) && Counters(b, s, s.threads[t])
    requires Searching(b.arr, s.arr, s.threads[t].op.Target(), Masked(g + (i + 1), |b.arr.over|), i + 1)
    ensures Follows(b, s, t)
  {
  }

  lemma SearchPlaced(a: Arrays, b: Arrays, e: Elem, g: nat, i: nat, x: nat)
    requires Searching(a, b, e.key, g, i) && FirstAvailable(b, g, x)
    ensures x < |b.slots| && Placed(a, e, x, PutSlot(b, x, Slot(ReducedHash(e.key.hash), Some(e))))
  {
    assert x / 15 == g;
    RankIsFirst(a, e.key, i);
  }

  lemma TakeFollows(b: State, s: State, t: nat, s': State)
    requires Shape(s) && Follows(b, s, t) && ReserveStep(s, t, s') && s.threads[t].pc.PickSlot?
    requires s.threads[t].op.Insert? && !GroupFull(s.arr, s.threads[t].pc.g)
    ensures Follows(b, s', t)
  {
    var x := Picked(s, t, s');
    SearchPlaced(b.arr, s.arr, s.threads[t].op.elem, s.threads[t].pc.g, s.threads[t].pc.i, x);
    TakenFollows(b, s, t, s', x);
  }

  lemma TakenFollows(b: State, s: State, t: nat, s': State, x: nat)
    requires Shape(s) && Follows(b, s, t) && s.threads[t].pc.PickSlot? && Takes(s, t, x, s')
    requires s.threads[t].op.Insert?
    requires var e := s.threads[t].op.elem;
      Placed(b.arr, e, x, PutSlot(s.arr, x, Slot(ReducedHash(e.key.hash), Some(e))))
    ensures Follows(b, s', t)
  {
    var e := s.threads[t].op.elem;
    assert PutSlot(s'.arr, x, Slot(ReducedHash(e.key.hash), Some(e)))
      == PutSlot(s.arr, x, Slot(ReducedHash(e.key.hash), Some(e)));
  }

  // ----- committing -----

  lemma BumpFollows(b: State, s: State, t: nat, s': State)
    requires Shape(s) && Follows(b, s, t) && CommitStep(s, t, s') && s.threads[t].pc.Bump?
    ensures Follows(b, s', t)
  {
    assert PcShape(s.arr, s.threads[t]);
    assert b.arr.bits == s.arr.bits;
  }

  lemma ConstructFollows(b: State, s: State, t: nat, s': State)
    requires Shape(s) && Follows(b, s, t) && CommitStep(s, t, s') && s.threads[t].pc.Construct?
    ensures Follows(b, s', t)
  {
  }

  lemma PlacedAnew(a: Arrays, e: Elem, x: nat, b: Arrays, v: int)
    requires Placed(a, e, x, b)
    ensures Placed(a, Elem(e.key, v), x, PutSlot(b, x, b.slots[x].(elem := Some(Elem(e.key, v)))))
  {
  }

  lemma InsertedFollows(b: State, s: State, t: nat, s': State)
    requires Shape(s) && Follows(b, s, t) && CommitStep(s, t, s') && s.threads[t].pc.Inserted?
    ensures Follows(b, s', t)
  {
    var op, x := s.threads[t].op, s.threads[t].pc.x;
    PlacedAnew(b.arr, op.elem, x, s.arr, op.initial(op.elem.val));
    assert InsertedAt(b, s', x, Elem(op.elem.key, op.initial(op.elem.val)));
  }

  // ----- every step -----

  lemma LookupFollows(b: State, s: State, t: nat, s': State)
    requires Inv(s) && Follows(b, s, t) && LookupStep(s, t, s')
    ensures Follows(b, s', t)
  {
    if Looking(s.threads[t].pc) {
      LookingFollows(b, s, t, s');
    } else if s.threads[t].pc.Found? {
      FoundHere(s, t);
      FoundFollows(b, s, t, s');
    } else {
      LeaveFollows(b, s, t, s');
    }
  }

  lemma EraseStepFollows(b: State, s: State, t: nat, s': State)
    requires Inv(s) && Follows(b, s, t) && EraseStep(s, t, s')
    ensures Follows(b, s', t)
  {
    assert ThreadOk(s, s.threads[t]);
    EraseFollows(b, s, t, s');
  }

  lemma PickFollows(b: State, s: State, t: nat, s': State)
    requires Shape(s) && Follows(b, s, t) && ReserveStep(s, t, s') && s.threads[t].pc.PickSlot?
    ensures Follows(b, s', t)
  {
    assert PcShape(s.arr, s.threads[t]);
    if GroupFull(s.arr, s.threads[t].pc.g) {
      PassFollows(b, s, t, s');
    } else {
      TakeFollows(b, s, t, s');
    }
  }

  lemma CheckHasFree(s: State, t: nat, s': State)
    requires Shape(s) && Inv(s') && Accounts(s') && t < |s.threads| && ReserveStep(s, t, s')
    requires s.threads[t].pc.CheckSize?
    ensures s.threads[t].pc.reserved <= s.ml ==> HasFree(s.arr)
  {
    if s.threads[t].pc.reserved <= s.ml {
      assert s'.threads[t].pc.AcquireSlot? && s'.arr == s.arr;
      ReservationHasRoom(s', t);
    }
  }

  lemma ReserveStepFollows(b: State, s: State, t: nat, s': State)
    requires Shape(s) && Inv(s') && Accounts(s') && Follows(b, s, t) && ReserveStep(s, t, s')
    ensures Follows(b, s', t)
  {
    var pc := s.threads[t].pc;
    if pc.CheckSize? {
      CheckHasFree(s, t, s');
      CheckFollows(b, s, t, s');
    } else if pc.PickSlot? {
      PickFollows(b, s, t, s');
    } else if pc.AcquireSlot? || pc.Overflowed? {
      AcquireFollows(b, s, t, s');
    } else {
      ReserveFollows(b, s, t, s');
    }
  }

  lemma CommitStepFollows(b: State, s: State, t: nat, s': State)
    requires Shape(s) && Follows(b, s, t) && CommitStep(s, t, s')
    ensures Follows(b, s', t)
  {
    if s.threads[t].pc.Bump? {
      BumpFollows(b, s, t, s');
    } else if s.threads[t].pc.Construct? {
      ConstructFollows(b, s, t, s');
    } else {
      InsertedFollows(b, s, t, s');
    }
  }

  lemma InnerFollows(b: State, s: State, t: nat, s': State)
    requires Inv(s) && Inv(s') && Accounts(s') && Follows(b, s, t) && InnerStep(s, t, s')
    ensures Follows(b, s', t)
  {
    if LookupStep(s, t, s') {
      LookupFollows(b, s, t, s');
    } else if EraseStep(s, t, s') {
      EraseStepFollows(b, s, t, s');
    } else if ReserveStep(s, t, s') {
      ReserveStepFollows(b, s, t, s');
    } else {
      CommitStepFollows(b, s, t, s');
    }
  }

  /** Thread t found the table of state s full, and state b is the one it went on from: the
      same elements in the arrays that growth asks for. */
  ghost predicate Grew(s: State, b: State, t: nat) {
    && t < |s.threads| && t < |b.threads| && b.threads[t].op == s.threads[t].op && s.threads[t].op.Insert?
    && s.size == s.ml && Regrown(s.arr, s.size, b.arr)
    && b.size == s.size < b.ml == InitialMaxLoad(b.arr.Capacity())
  }

  lemma ReentryFollows(b: State, s: State, t: nat, s': State)
    requires Shape(s) && Follows(b, s, t) && ExclusiveStep(s, t, s') && s.threads[t].pc.Reenter?
    ensures Follows(b, s', t)
  {
    assert PcShape(s.arr, s.threads[t]);
  }

  lemma RehashFollows(b: State, s: State, t: nat, s': State)
    requires Shape(s) && Follows(b, s, t) && ExclusiveStep(s, t, s') && s.threads[t].pc.Full? && s.size == s.ml
    ensures Grew(b, s', t) && Follows(s', s', t)
  {
    assert PcShape(s.arr, s.threads[t]);
    GrowthMakesRoom(s.size);
    assert s'.arr.Capacity() == CapacityFor(GrowthRequest(s.size));
  }

  /** The state on which the operation of thread t, begun in state s0, really works. */
  ghost predicate Base(s0: State, b: State, t: nat) {
    b == s0 || Grew(s0, b, t)
  }

  ghost predicate FollowsSome(s0: State, s: State, t: nat) {
    exists b :: Base(s0, b, t) && Follows(b, s, t)
  }

  lemma FullFollows(s0: State, b: State, s: State, t: nat, s': State)
    requires Inv(s) && Accounts(s) && Alone(s, t) && Base(s0, b, t) && Follows(b, s, t)
    requires ExclusiveStep(s, t, s') && s.threads[t].pc.Full?
    ensures FollowsSome(s0, s', t)
  {
    AloneSettled(s, t);
    RehashFollows(b, s, t, s');
  }

  lemma StepFollows(s0: State, s: State, t: nat, s': State)
    requires LeftAlone(s, t) && FollowsSome(s0, s, t) && SoloStep(s, t, s')
    ensures FollowsSome(s0, s', t)
  {
    StepSound(s, t, s');
    var b :| Base(s0, b, t) && Follows(b, s, t);
    if InnerStep(s, t, s') {
      InnerFollows(b, s, t, s');
    } else if s.threads[t].pc.Full? {
      FullFollows(s0, b, s, t, s');
    } else {
      ReentryFollows(b, s, t, s');
    }
  }

  // ----- runs -----

  lemma BeginFollows(run: seq<State>, i: nat, j: nat, t: nat)
    requires IsRun(run) && Operation(run, i, j, t)
    ensures FollowsSome(run[i], run[i], t)
  {
    OperationBegins(run, i, j, t);
    RunInv(run, i);
    var s := run[i];
    assert Follows(s, s, t);
  }

  lemma RunFollows(run: seq<State>, i: nat, j: nat, t: nat, n: nat)
    requires IsRun(run) && i <= n < j < |run| && Alone(run[i], t) && Solo(run, i, j, t)
    requires FollowsSome(run[i], run[n], t)
    ensures FollowsSome(run[i], run[n + 1], t)
  {
    RunSound(run, n);
    StaysAlone(run, i, j, t, n);
    assert SoloAt(run, n, t);
    StepFollows(run[i], run[n], t, run[n + 1]);
  }

  lemma {:induction false} SoloFollows(run: seq<State>, i: nat, j: nat, t: nat, n: nat)
    requires IsRun(run) && Operation(run, i, j, t) && i <= n <= j && Alone(run[i], t) && Solo(run, i, j, t)
    ensures FollowsSome(run[i], run[n], t)
    decreases n
  {
    if n == i {
      BeginFollows(run, i, j, t);
    } else {
      SoloFollows(run, i, j, t, n - 1);
      RunFollows(run, i, j, t, n - 1);
    }
  }

  /** An operation during which nobody else is inside does to arrays, size and load limit just
      what the sequential table does: an insertion places its element where the sequential
      table would, in the same arrays if there is room below the limit, and in arrays grown
      for the same elements if there is not; an erasure resets exactly one slot, and lowers
      the limit exactly if it may have caused overflow. */
  lemma SoloIsSequential(run: seq<State>, i: nat, j: nat, t: nat) returns (b: State)
    requires IsRun(run) && Operation(run, i, j, t) && Alone(run[i], t) && Solo(run, i, j, t)
    ensures Base(run[i], b, t)
    ensures Sequential(b, run[j], run[i].threads[t].op, run[j].threads[t].pc.reply)
  {
    SoloFollows(run, i, j, t, j);
    b :| Base(run[i], b, t) && Follows(b, run[j], t);
    EveryOperationLinearizes(run, i, j, t);
  }
}
