/** A thread that is left alone finishes: from every reachable state, whatever it and the
    others were doing, if the others are apart it needs boundedly many own steps. */
module ProtocolSolo {
  import opened Counting
  import opened Probing
  import opened Tables
  import opened TableModel
  import opened TableCore
  import opened TableGrowth
  import opened Protocol
  import opened ProtocolInvariant
  import opened ProtocolAccounts
  import opened ProtocolTheorems
  import opened ProtocolTable
  import opened ProtocolLinearization

  /** Nobody but t is inside the container. */
  predicate Alone(s: State, t: nat) {
    t < |s.threads| && AloneOutside(s, t)
  }

  // ----- how far the next group with room is -----

  /** How many full groups, up to n, come next on the path from probe i on. */
  ghost function FullAhead(a: Arrays, key: Key, i: nat, n: nat): (k: nat)
    requires a.WellFormed()
    ensures k <= n
    decreases n
  {
    if n == 0 || !GroupFull(a, PathAt(a, key, i)) then 0 else 1 + FullAhead(a, key, i + 1, n - 1)
  }

  lemma OnePassed(a: Arrays, key: Key, i: nat, n: nat)
    requires a.WellFormed() && GroupFull(a, PathAt(a, key, i)) && n > 0
    ensures FullAhead(a, key, i, n) == 1 + FullAhead(a, key, i + 1, n - 1)
  {
  }

  lemma {:induction false} StopsAtRoom(a: Arrays, key: Key, i: nat, n: nat, j: nat)
    requires a.WellFormed() && i <= j < i + n && !GroupFull(a, PathAt(a, key, j))
    ensures FullAhead(a, key, i, n) <= j - i
    decreases n
  {
    if GroupFull(a, PathAt(a, key, i)) {
      OnePassed(a, key, i, n);
      StopsAtRoom(a, key, i + 1, n - 1, j);
    }
  }

  lemma {:induction false} PathGoesRound(a: Arrays, key: Key, i: nat, k: nat, m: nat)
    requires a.WellFormed() && m == 2 * |a.over|
    ensures k * m >= 0 && PathAt(a, key, i + k * m) == PathAt(a, key, i)
  {
    if k > 0 {
      PathGoesRound(a, key, i, k - 1, m);
      OneRound(a, key, i + (k - 1) * m, m);
      assert k * m == (k - 1) * m + m;
    }
  }

  lemma OneRound(a: Arrays, key: Key, i: nat, m: nat)
    requires a.WellFormed() && m == 2 * |a.over|
    ensures PathAt(a, key, i + m) == PathAt(a, key, i)
  {
    ProbeGoesRound(Home(a.bits, key), i, a.bits);
  }

  /** One of the next m numbers from i on is congruent to r. */
  lemma NextCongruent(i: nat, r: nat, m: nat) returns (k: nat)
    requires r < m
    ensures i <= r + k * m < i + m
  {
    k := 0;
    if i <= r {
      assert k * m == 0;
    } else {
      k := (i - r + m - 1) / m;
      QuotientBounds(i - r + m - 1, m);
    }
  }

  lemma QuotientBounds(x: nat, m: nat)
    requires m > 0
    ensures x / m * m <= x < x / m * m + m
  {
  }

  /** As long as any slot is free, a group with room comes up within two rounds. */
  lemma RoomAhead(a: Arrays, key: Key, i: nat)
    requires a.WellFormed() && exists y :: 0 <= y < |a.slots| && a.slots[y].meta == AVAILABLE
    ensures FullAhead(a, key, i, 2 * |a.over|) < 2 * |a.over|
  {
    var y :| 0 <= y < |a.slots| && a.slots[y].meta == AVAILABLE;
    var r := Rank(a, key, y / 15);
    var k := NextCongruent(i, r, 2 * |a.over|);
    PathGoesRound(a, key, r, k, 2 * |a.over|);
    HasRoom(a, y / 15, y);
    StopsAtRoom(a, key, i, 2 * |a.over|, r + k * (2 * |a.over|));
  }

  lemma HasRoom(a: Arrays, g: nat, y: nat)
    requires y < |a.slots| && a.slots[y].meta == AVAILABLE && g == y / 15
    ensures !GroupFull(a, g)
  {
    assert 15 * g <= y < 15 * g + 15;
  }

  lemma {:induction false} OneFurther(a: Arrays, key: Key, i: nat, n: nat)
    requires a.WellFormed() && FullAhead(a, key, i, n) < n
    ensures FullAhead(a, key, i, n + 1) == FullAhead(a, key, i, n)
    decreases n
  {
    if GroupFull(a, PathAt(a, key, i)) {
      OnePassed(a, key, i, n);
      OnePassed(a, key, i, n + 1);
      OneFurther(a, key, i + 1, n - 1);
    }
  }

  /** Passing a full group brings the next one with room nearer. */
  lemma RoomNearer(a: Arrays, key: Key, i: nat)
    requires a.WellFormed() && GroupFull(a, PathAt(a, key, i))
    requires exists y :: 0 <= y < |a.slots| && a.slots[y].meta == AVAILABLE
    ensures FullAhead(a, key, i, 2 * |a.over|) == 1 + FullAhead(a, key, i + 1, 2 * |a.over|)
  {
    RoomAhead(a, key, i);
    StillBelow(a, key, i, 2 * |a.over|);
  }

  lemma StillBelow(a: Arrays, key: Key, i: nat, n: nat)
    requires a.WellFormed() && GroupFull(a, PathAt(a, key, i)) && FullAhead(a, key, i, n) < n
    ensures FullAhead(a, key, i, n) == 1 + FullAhead(a, key, i + 1, n)
  {
    OnePassed(a, key, i, n);
    OneFurther(a, key, i + 1, n - 1);
  }

  lemma {:induction false} SameRoom(a: Arrays, b: Arrays, key: Key, i: nat, n: nat)
    requires a.WellFormed() && b.WellFormed() && a.slots == b.slots && a.bits == b.bits
    ensures FullAhead(a, key, i, n) == FullAhead(b, key, i, n)
    decreases n
  {
    assert PathAt(a, key, i) == PathAt(b, key, i);
    if n > 0 {
      SameRoom(a, b, key, i + 1, n - 1);
    }
  }

  // ----- how many steps are left -----

  /** Own steps that one attempt takes at most: a lookup, a search for a slot, and what lies
      between. */
  function Round(groups: nat): nat { 39 * groups + 8 }

  /** Elements in the table, when nobody else is inside. */
  function Elements(s: State, t: nat): int
    requires t < |s.threads|
  {
    s.size - SizeShare(s.threads[t])
  }

  function GroupsGrown(elements: int): nat {
    if elements < 0 then 1 else Pow2(BitsFor(GrowthRequest(elements)))
  }

  /** An insertion will find the table full. */
  predicate Short(s: State, t: nat)
    requires t < |s.threads|
  {
    Elements(s, t) >= s.ml
  }

  /** From the refusal of a reservation on: rehash if need be, and start over. */
  function Detour(s: State, t: nat): nat
    requires t < |s.threads|
  {
    4 + Round(if Short(s, t) then GroupsGrown(Elements(s, t)) else |s.arr.over|)
  }

  ghost predicate Stale(s: State, th: Thread)
    requires Shape(s)
  {
    Recorded(th).Some? && Recorded(th).value != s.count[Home(s.arr.bits, th.op.Target())]
  }

  /** What has to be done again: all of it if the table is full, or if the recorded counter
      has moved. */
  ghost function Again(s: State, t: nat): nat
    requires Shape(s) && t < |s.threads|
  {
    if !s.threads[t].op.Insert? then 0
    else if Short(s, t) then Detour(s, t)
    else if Stale(s, s.threads[t]) then 4 + Round(|s.arr.over|)
    else 0
  }

  /** A bound on the own steps left to thread t, as long as nobody else is inside, if `room`
      full groups lie between its search and a group with room. */
  ghost function BudgetWith(s: State, t: nat, room: nat): int
    requires Shape(s) && t < |s.threads|
  {
    var g := |s.arr.over|;
    var pc := s.threads[t].pc;
    match pc
    case Outside(_) => 0
    case Leave(_, _, _) => 1
    case Inserted(_) => 2
    case EraseCount(_, _) => 2
    case Construct(_) => 3
    case EraseReset(_, _) => 3
    case EraseLoad(_) => 4
    case Found(_) => 5
    case Bump(_, _, _) => 4 + Again(s, t)
    case PickSlot(_, _, _) => 3 * room + 6 + Again(s, t)
    case AcquireSlot(_, _, _) => 3 * room + 7 + Again(s, t)
    case Overflowed(_, _, _) => 3 * room + 8 + Again(s, t)
    case CheckSize(_, reserved) => if reserved > s.ml then Detour(s, t) else 6 * g + 6 + Again(s, t)
    case ReserveSize(_) => 6 * g + 7 + Again(s, t)
    case ReadCounter => Round(g) + Again(s, t)
    case Reenter => 1 + Round(g) + Again(s, t)
    case UndoSize => 1 + Round(g) + Again(s, t)
    case UndoRelease(_) => 2 + Round(g) + Again(s, t)
    case Undo(_) => 3 + Round(g) + Again(s, t)
    case GiveBack => Detour(s, t) - 1
    case Full => Detour(s, t) - 2
    case _ => Effort(g, pc) + 6 * g + 7 + Again(s, t)
  }

  /** Full groups between the search of thread t and a group with room. */
  ghost function RoomHere(s: State, t: nat): (k: nat)
    requires Shape(s) && t < |s.threads|
    ensures k <= 2 * |s.arr.over|
  {
    var key, n := s.threads[t].op.Target(), 2 * |s.arr.over|;
    match s.threads[t].pc
    case AcquireSlot(i, _, _) => FullAhead(s.arr, key, i, n)
    case PickSlot(i, _, _) => FullAhead(s.arr, key, i, n)
    case Overflowed(i, _, _) => FullAhead(s.arr, key, i + 1, n)
    case _ => 0
  }

  ghost function Budget(s: State, t: nat): int
    requires Shape(s) && t < |s.threads|
  {
    BudgetWith(s, t, RoomHere(s, t))
  }

  /** How the distance may change with a step. */
  predicate RoomFalls(pc: Pc, room: nat, pc': Pc, room': nat, groups: nat) {
    && (pc.CheckSize? && pc'.AcquireSlot? ==> room' < 2 * groups)
    && (pc.AcquireSlot? || pc.Overflowed? ==> room' == room)
    && (pc.PickSlot? && pc'.Overflowed? ==> room == 1 + room')
  }

  /** Nothing has changed that the rest of the work depends on. */
  ghost predicate SameAgain(s: State, t: nat, s': State)
    requires Shape(s) && Shape(s') && t < |s.threads| && t < |s'.threads|
  {
    && s'.threads[t].op == s.threads[t].op && |s'.arr.over| == |s.arr.over| && s'.arr.bits == s.arr.bits
    && s'.ml == s.ml && Elements(s', t) == Elements(s, t) && s'.count == s.count
    && (Recorded(s'.threads[t]) == Recorded(s.threads[t]) || !Stale(s', s'.threads[t]))
  }

  lemma AgainShrinks(s: State, t: nat, s': State)
    requires Shape(s) && Shape(s') && t < |s.threads| && t < |s'.threads| && SameAgain(s, t, s')
    ensures Again(s', t) <= Again(s, t) && Detour(s', t) == Detour(s, t)
  {
  }

  lemma LookupSame(s: State, t: nat, s': State)
    requires Shape(s) && Shape(s') && t < |s.threads| && LookupStep(s, t, s') && Looking(s.threads[t].pc)
    ensures t < |s'.threads| && SameAgain(s, t, s')
    ensures var pc := s'.threads[t].pc; Looking(pc) || pc.Found? || pc.Outside? || pc.ReserveSize?
  {
    if s.threads[t].pc.Scan? {
      ScanSame(s, t, s');
    }
  }

  lemma ScanSame(s: State, t: nat, s': State)
    requires Shape(s) && Shape(s') && t < |s.threads| && LookupStep(s, t, s') && s.threads[t].pc.Scan?
    ensures t < |s'.threads| && SameAgain(s, t, s')
    ensures Looking(s'.threads[t].pc) || s'.threads[t].pc.Found?
  {
  }

  lemma LookingSpends(s: State, t: nat, s': State, room: nat, room': nat)
    requires Shape(s) && Shape(s') && t < |s.threads| && LookupStep(s, t, s') && Looking(s.threads[t].pc)
    ensures t < |s'.threads| && BudgetWith(s', t, room') < BudgetWith(s, t, room)
  {
    LookupSame(s, t, s');
    AgainShrinks(s, t, s');
    EffortBounds(s.arr, s.threads[t]);
    if Looking(s'.threads[t].pc) {
      LookupShrinks(s, t, s');
    }
  }

  lemma FoundSpends(s: State, t: nat, s': State, room: nat, room': nat)
    requires Shape(s) && Shape(s') && t < |s.threads| && LookupStep(s, t, s') && !Looking(s.threads[t].pc)
    ensures t < |s'.threads| && BudgetWith(s', t, room') < BudgetWith(s, t, room)
  {
  }

  lemma EraseSpends(s: State, t: nat, s': State, room: nat, room': nat)
    requires Shape(s) && Shape(s') && t < |s.threads| && EraseStep(s, t, s')
    ensures t < |s'.threads| && BudgetWith(s', t, room') < BudgetWith(s, t, room)
  {
  }

  // ----- the accounts of a thread alone -----

  lemma AloneShares(s: State, t: nat)
    requires Alone(s, t)
    ensures Sum(s.threads, SizeShare) == SizeShare(s.threads[t])
    ensures Sum(s.threads, WeightAt(s.ml)) == Weight(s.threads[t], s.ml)
  {
    var apart := s.threads[t].(pc := Full);
    SumUpdate(s.threads, t, apart, SizeShare);
    SumUpdate(s.threads, t, apart, WeightAt(s.ml));
    RestingThreads(s.threads[t := apart], s.ml);
  }

  /** Alone, the elements are the claims, and fit the limit together with what the thread
      has been granted. */
  lemma AloneElements(s: State, t: nat)
    requires Inv(s) && Accounts(s) && Alone(s, t)
    ensures Elements(s, t) == Claims(s) >= 0 && Elements(s, t) + Weight(s.threads[t], s.ml) <= s.ml
  {
    AloneShares(s, t);
    LimitNeverUnderflows(s);
  }

  // ----- every step spends -----

  /** Some slot is free. */
  ghost predicate HasFree(a: Arrays) {
    exists y :: 0 <= y < |a.slots| && a.slots[y].meta == AVAILABLE
  }

  lemma BeginsSpends(s: State, t: nat, s': State, room: nat, room': nat)
    requires Shape(s) && Shape(s') && t < |s.threads| && ReserveStep(s, t, s') && s.threads[t].pc.ReadCounter?
    ensures t < |s'.threads| && BudgetWith(s', t, room') < BudgetWith(s, t, room)
  {
    assert SameAgain(s, t, s');
    AgainShrinks(s, t, s');
  }

  lemma ReservingSpends(s: State, t: nat, s': State, room: nat, room': nat)
    requires Shape(s) && Shape(s') && t < |s.threads| && ReserveStep(s, t, s')
    requires s.threads[t].pc.ReserveSize? || s.threads[t].pc.GiveBack?
    ensures t < |s'.threads| && BudgetWith(s', t, room') < BudgetWith(s, t, room)
  {
    assert PcShape(s.arr, s.threads[t]);
    assert SameAgain(s, t, s');
    AgainShrinks(s, t, s');
  }

  lemma CheckingSpends(s: State, t: nat, s': State, room: nat, room': nat)
    requires Shape(s) && Shape(s') && t < |s.threads| && ReserveStep(s, t, s') && s.threads[t].pc.CheckSize?
    requires room' < 2 * |s.arr.over|
    ensures t < |s'.threads| && BudgetWith(s', t, room') < BudgetWith(s, t, room)
  {
    assert SameAgain(s, t, s');
    AgainShrinks(s, t, s');
  }

  lemma LockingSame(s: State, t: nat, s': State)
    requires Shape(s) && Shape(s') && t < |s.threads| && ReserveStep(s, t, s') && s.threads[t].pc.AcquireSlot?
    ensures t < |s'.threads| && SameAgain(s, t, s') && s'.threads[t].pc.PickSlot?
  {
  }

  lemma MovingOnSame(s: State, t: nat, s': State)
    requires Shape(s) && Shape(s') && t < |s.threads| && ReserveStep(s, t, s') && s.threads[t].pc.Overflowed?
    ensures t < |s'.threads| && SameAgain(s, t, s') && s'.threads[t].pc.AcquireSlot?
  {
  }

  lemma SearchingSpends(s: State, t: nat, s': State, room: nat)
    requires Shape(s) && Shape(s') && t < |s.threads| && ReserveStep(s, t, s')
    requires s.threads[t].pc.AcquireSlot? || s.threads[t].pc.Overflowed?
    ensures t < |s'.threads| && BudgetWith(s', t, room) < BudgetWith(s, t, room)
  {
    if s.threads[t].pc.AcquireSlot? {
      LockingSame(s, t, s');
    } else {
      MovingOnSame(s, t, s');
    }
    AgainShrinks(s, t, s');
  }

  lemma PassingSpends(s: State, t: nat, s': State, room: nat)
    requires Shape(s) && Shape(s') && t < |s.threads| && ReserveStep(s, t, s') && s.threads[t].pc.PickSlot?
    requires GroupFull(s.arr, s.threads[t].pc.g)
    ensures t < |s'.threads| && BudgetWith(s', t, room) < BudgetWith(s, t, 1 + room)
  {
    assert SameAgain(s, t, s');
    AgainShrinks(s, t, s');
  }

  lemma TakingSpends(s: State, t: nat, x: nat, s': State, room: nat, room': nat)
    requires Shape(s) && Shape(s') && t < |s.threads| && s.threads[t].pc.PickSlot? && Takes(s, t, x, s')
    ensures t < |s'.threads| && BudgetWith(s', t, room') < BudgetWith(s, t, room)
  {
    assert PcShape(s.arr, s.threads[t]);
    assert SameAgain(s, t, s');
    AgainShrinks(s, t, s');
  }

  lemma PickingSpends(s: State, t: nat, s': State, room: nat, room': nat)
    requires Shape(s) && Shape(s') && t < |s.threads| && ReserveStep(s, t, s') && s.threads[t].pc.PickSlot?
    requires t < |s'.threads| && s'.threads[t].pc.Overflowed? ==> room == 1 + room'
    ensures t < |s'.threads| && BudgetWith(s', t, room') < BudgetWith(s, t, room)
  {
    if GroupFull(s.arr, s.threads[t].pc.g) {
      PassingSpends(s, t, s', room');
    } else {
      var x := Picked(s, t, s');
      TakingSpends(s, t, x, s', room, room');
    }
  }

  lemma ReserveSpends(s: State, t: nat, s': State, room: nat, room': nat)
    requires Shape(s) && Shape(s') && t < |s.threads| && ReserveStep(s, t, s')
    requires t < |s'.threads| && RoomFalls(s.threads[t].pc, room, s'.threads[t].pc, room', |s.arr.over|)
    ensures BudgetWith(s', t, room') < BudgetWith(s, t, room)
  {
    match s.threads[t].pc
    case ReadCounter => BeginsSpends(s, t, s', room, room');
    case ReserveSize(_) => ReservingSpends(s, t, s', room, room');
    case GiveBack => ReservingSpends(s, t, s', room, room');
    case CheckSize(_, _) => CheckingSpends(s, t, s', room, if s'.threads[t].pc.AcquireSlot? then room' else 0);
    case PickSlot(_, _, _) => PickingSpends(s, t, s', room, room');
    case AcquireSlot(_, _, _) => SearchingSpends(s, t, s', room);
    case Overflowed(_, _, _) => SearchingSpends(s, t, s', room);
  }

  lemma WinSpends(s: State, t: nat, s': State, room: nat, room': nat)
    requires Shape(s) && Shape(s') && t < |s.threads| && CommitStep(s, t, s') && Commits(s, t)
    ensures t < |s'.threads| && BudgetWith(s', t, room') < BudgetWith(s, t, room)
  {
    assert s'.threads[t].pc.Construct?;
  }

  lemma LossSpends(s: State, t: nat, s': State, room: nat, room': nat)
    requires Shape(s) && Shape(s') && t < |s.threads| && CommitStep(s, t, s') && s.threads[t].pc.Bump?
    requires !Short(s, t) && !Commits(s, t)
    ensures t < |s'.threads| && BudgetWith(s', t, room') < BudgetWith(s, t, room)
  {
    assert PcShape(s.arr, s.threads[t]);
    assert s'.threads[t].pc.Undo? && Stale(s, s.threads[t]);
  }

  lemma BumpSpends(s: State, t: nat, s': State, room: nat, room': nat)
    requires Shape(s) && Shape(s') && t < |s.threads| && CommitStep(s, t, s') && s.threads[t].pc.Bump?
    requires !Short(s, t)
    ensures t < |s'.threads| && BudgetWith(s', t, room') < BudgetWith(s, t, room)
  {
    if Commits(s, t) {
      WinSpends(s, t, s', room, room');
    } else {
      LossSpends(s, t, s', room, room');
    }
  }

  lemma UndoSpends(s: State, t: nat, s': State, room: nat, room': nat)
    requires Shape(s) && Shape(s') && t < |s.threads| && CommitStep(s, t, s') && !s.threads[t].pc.Bump?
    ensures t < |s'.threads| && BudgetWith(s', t, room') < BudgetWith(s, t, room)
  {
    assert PcShape(s.arr, s.threads[t]);
    if !Constructing(s.threads[t].pc) {
      assert SameAgain(s, t, s');
      AgainShrinks(s, t, s');
    }
  }

  lemma CommitSpends(s: State, t: nat, s': State, room: nat, room': nat)
    requires Inv(s) && Accounts(s) && Alone(s, t) && Shape(s') && CommitStep(s, t, s')
    ensures t < |s'.threads| && BudgetWith(s', t, room') < BudgetWith(s, t, room)
  {
    if s.threads[t].pc.Bump? {
      AloneElements(s, t);
      BumpSpends(s, t, s', room, room');
    } else {
      UndoSpends(s, t, s', room, room');
    }
  }

  lemma RehashSpends(s: State, t: nat, s': State, room: nat, room': nat)
    requires Shape(s) && Shape(s') && t < |s.threads| && ExclusiveStep(s, t, s') && s.threads[t].pc.Full?
    requires s.size == s.ml
    ensures t < |s'.threads| && BudgetWith(s', t, room') < BudgetWith(s, t, room)
  {
    assert PcShape(s.arr, s.threads[t]);
    GrowthMakesRoom(s.size);
    assert |s'.arr.over| == Pow2(BitsFor(GrowthRequest(s.size)));
    assert s'.arr.Capacity() == CapacityFor(GrowthRequest(s.size));
  }

  lemma ReentrySpends(s: State, t: nat, s': State, room: nat, room': nat)
    requires Shape(s) && Shape(s') && t < |s.threads| && ExclusiveStep(s, t, s') && !s.threads[t].pc.Outside?
    requires s.threads[t].pc.Full? ==> s.size < s.ml
    ensures t < |s'.threads| && BudgetWith(s', t, room') < BudgetWith(s, t, room)
  {
    assert PcShape(s.arr, s.threads[t]);
    assert SameAgain(s, t, s');
    AgainShrinks(s, t, s');
  }

  lemma ExclusiveSpends(s: State, t: nat, s': State, room: nat, room': nat)
    requires Inv(s) && Accounts(s) && Alone(s, t) && Shape(s') && ExclusiveStep(s, t, s')
    requires !s.threads[t].pc.Outside?
    ensures t < |s'.threads| && BudgetWith(s', t, room') < BudgetWith(s, t, room)
  {
    if s.threads[t].pc.Full? {
      AloneSettled(s, t);
    }
    if s.threads[t].pc.Full? && s.size == s.ml {
      RehashSpends(s, t, s', room, room');
    } else {
      ReentrySpends(s, t, s', room, room');
    }
  }

  lemma PassingMarks(s: State, t: nat, s': State)
    requires Shape(s) && t < |s.threads| && ReserveStep(s, t, s') && s.threads[t].pc.PickSlot?
    requires GroupFull(s.arr, s.threads[t].pc.g)
    ensures t < |s'.threads| && s'.threads[t].op == s.threads[t].op
    ensures s'.threads[t].pc.Overflowed? && s'.threads[t].pc.i == s.threads[t].pc.i
    ensures s'.arr.slots == s.arr.slots && s'.arr.bits == s.arr.bits && |s'.arr.over| == |s.arr.over|
  {
    assert PcShape(s.arr, s.threads[t]);
  }

  lemma NearerAfter(a: Arrays, b: Arrays, key: Key, i: nat)
    requires a.WellFormed() && b.WellFormed() && a.slots == b.slots && a.bits == b.bits && |a.over| == |b.over|
    requires HasFree(a) && GroupFull(a, PathAt(a, key, i))
    ensures FullAhead(a, key, i, 2 * |a.over|) == 1 + FullAhead(b, key, i + 1, 2 * |b.over|)
  {
    RoomNearer(a, key, i);
    SameRoom(a, b, key, i + 1, 2 * |a.over|);
  }

  lemma PicksOnPath(s: State, t: nat)
    requires Shape(s) && t < |s.threads| && s.threads[t].pc.PickSlot?
    ensures s.threads[t].pc.g == PathAt(s.arr, s.threads[t].op.Target(), s.threads[t].pc.i)
  {
    assert PcShape(s.arr, s.threads[t]);
  }

  lemma RoomAtPick(s: State, t: nat, key: Key, i: nat)
    requires Shape(s) && t < |s.threads| && s.threads[t].op.Target() == key
    ensures s.threads[t].pc.PickSlot? && s.threads[t].pc.i == i ==>
      RoomHere(s, t) == FullAhead(s.arr, key, i, 2 * |s.arr.over|)
    ensures s.threads[t].pc.Overflowed? && s.threads[t].pc.i == i ==>
      RoomHere(s, t) == FullAhead(s.arr, key, i + 1, 2 * |s.arr.over|)
  {
  }

  lemma PassingNearer(s: State, t: nat, s': State, key: Key, i: nat)
    requires Shape(s) && Shape(s') && t < |s.threads| && ReserveStep(s, t, s') && s.threads[t].pc.PickSlot?
    requires s.threads[t].op.Target() == key && s.threads[t].pc.i == i
    requires GroupFull(s.arr, s.threads[t].pc.g)
    requires FullAhead(s.arr, key, i, 2 * |s.arr.over|) == 1 + FullAhead(s'.arr, key, i + 1, 2 * |s'.arr.over|)
    ensures t < |s'.threads| && RoomHere(s, t) == 1 + RoomHere(s', t)
  {
    PassingMarks(s, t, s');
    RoomAtPick(s, t, key, i);
    RoomAtPick(s', t, key, i);
  }

  lemma PassingFalls(s: State, t: nat, s': State, key: Key, i: nat)
    requires Shape(s) && Shape(s') && t < |s.threads| && ReserveStep(s, t, s') && s.threads[t].pc.PickSlot?
    requires s.threads[t].op.Target() == key && s.threads[t].pc.i == i
    requires HasFree(s.arr) && s.threads[t].pc.g == PathAt(s.arr, key, i) && GroupFull(s.arr, s.threads[t].pc.g)
    ensures t < |s'.threads| && RoomHere(s, t) == 1 + RoomHere(s', t)
  {
    PassingMarks(s, t, s');
    NearerAfter(s.arr, s'.arr, key, i);
    PassingNearer(s, t, s', key, i);
  }

  lemma TakingEnds(s: State, t: nat, s': State)
    requires Shape(s) && t < |s.threads| && ReserveStep(s, t, s') && s.threads[t].pc.PickSlot?
    requires !GroupFull(s.arr, s.threads[t].pc.g)
    ensures t < |s'.threads| && s'.threads[t].pc.Bump?
  {
    var x := Picked(s, t, s');
  }

  lemma PickingNearer(s: State, t: nat, s': State)
    requires Shape(s) && Shape(s') && t < |s.threads| && ReserveStep(s, t, s') && s.threads[t].pc.PickSlot?
    requires HasFree(s.arr)
    ensures t < |s'.threads| && (s'.threads[t].pc.Overflowed? ==> RoomHere(s, t) == 1 + RoomHere(s', t))
  {
    if GroupFull(s.arr, s.threads[t].pc.g) {
      PicksOnPath(s, t);
      PassingFalls(s, t, s', s.threads[t].op.Target(), s.threads[t].pc.i);
    } else {
      TakingEnds(s, t, s');
    }
  }

  lemma SearchingStays(s: State, t: nat, s': State)
    requires Shape(s) && Shape(s') && t < |s.threads| && ReserveStep(s, t, s')
    requires s.threads[t].pc.AcquireSlot? || s.threads[t].pc.Overflowed?
    ensures t < |s'.threads| && RoomHere(s', t) == RoomHere(s, t)
  {
  }

  lemma CheckingNear(s: State, t: nat)
    requires Shape(s) && t < |s.threads| && s.threads[t].pc.AcquireSlot? && HasFree(s.arr)
    ensures RoomHere(s, t) < 2 * |s.arr.over|
  {
    RoomAhead(s.arr, s.threads[t].op.Target(), s.threads[t].pc.i);
  }

  lemma ReserveNearer(s: State, t: nat, s': State)
    requires Inv(s) && Accounts(s) && Inv(s') && Accounts(s') && t < |s.threads| && ReserveStep(s, t, s')
    ensures t < |s'.threads| && |s'.arr.over| == |s.arr.over|
    ensures RoomFalls(s.threads[t].pc, RoomHere(s, t), s'.threads[t].pc, RoomHere(s', t), |s.arr.over|)
  {
    ReserveQuiet(s, t, s');
    if s.threads[t].pc.CheckSize? && s'.threads[t].pc.AcquireSlot? {
      ReservationHasRoom(s', t);
      CheckingNear(s', t);
    } else if s.threads[t].pc.PickSlot? {
      ReservationHasRoom(s, t);
      PickingNearer(s, t, s');
    } else if s.threads[t].pc.AcquireSlot? || s.threads[t].pc.Overflowed? {
      SearchingStays(s, t, s');
    }
  }

  /** While nobody else is inside, each step of an operation lowers its budget. */
  lemma StepSpendsBudget(s: State, t: nat, s': State)
    requires Inv(s) && Accounts(s) && Alone(s, t) && Step(s, t, s') && !s.threads[t].pc.Outside?
    requires Inv(s') && Accounts(s')
    ensures t < |s'.threads| && Budget(s', t) < Budget(s, t)
  {
    SameThreads(s, t, s');
    if ReserveStep(s, t, s') {
      ReserveNearer(s, t, s');
      ReserveSpends(s, t, s', RoomHere(s, t), RoomHere(s', t));
    } else {
      OtherSpends(s, t, s', RoomHere(s, t), RoomHere(s', t));
    }
  }

  lemma OtherSpends(s: State, t: nat, s': State, room: nat, room': nat)
    requires Inv(s) && Accounts(s) && Alone(s, t) && Step(s, t, s') && !s.threads[t].pc.Outside?
    requires Shape(s') && !ReserveStep(s, t, s')
    ensures t < |s'.threads| && BudgetWith(s', t, room') < BudgetWith(s, t, room)
  {
    if LookupStep(s, t, s') {
      if Looking(s.threads[t].pc) {
        LookingSpends(s, t, s', room, room');
      } else {
        FoundSpends(s, t, s', room, room');
      }
    } else if EraseStep(s, t, s') {
      EraseSpends(s, t, s', room, room');
    } else if CommitStep(s, t, s') {
      CommitSpends(s, t, s', room, room');
    } else {
      ExclusiveSpends(s, t, s', room, room');
    }
  }

  // ----- there always is a step -----

  lemma AloneLocks(s: State, t: nat, want: Lock)
    requires Alone(s, t)
    ensures Grantable(s, t, want)
  {
    assert forall u :: 0 <= u < |s.threads| && u != t ==> Held(s.threads[u]).Free?;
  }

  lemma {:induction false} LeastExists(mask: set<nat>) returns (n: nat)
    requires mask != {}
    ensures Least(n, mask)
  {
    var m :| m in mask;
    if mask == {m} {
      n := m;
    } else {
      n := LeastExists(mask - {m});
      assert forall k :: k in mask ==> k == m || k in mask - {m};
      if m < n {
        n := m;
      }
    }
  }

  lemma ScanGoesOn(s: State, t: nat) returns (s': State)
    requires Shape(s) && t < |s.threads| && s.threads[t].pc.Scan?
    ensures LookupStep(s, t, s')
  {
    var th := s.threads[t];
    assert PcShape(s.arr, th);
    var n := LeastExists(th.pc.mask);
    var x := 15 * th.pc.g + n;
    if s.arr.slots[x].meta != AVAILABLE && KeyIn(s.arr.slots[x]) == Some(th.op.Target()) {
      s' := Become(s, t, Found(x));
    } else if th.pc.mask == {n} {
      s' := Become(s, t, CheckOverflow(th.pc.i, th.pc.g, th.pc.c));
    } else {
      s' := Become(s, t, Scan(th.pc.i, th.pc.g, th.pc.mask - {n}, th.pc.c));
    }
  }

  lemma MatchGoesOn(s: State, t: nat) returns (s': State)
    requires Shape(s) && t < |s.threads| && s.threads[t].pc.Match?
    ensures LookupStep(s, t, s')
  {
    var th := s.threads[t];
    var pc := th.pc;
    assert PcShape(s.arr, th);
    if pc.j < 15 {
      var hit := s.arr.slots[15 * pc.g + pc.j].meta == ReducedHash(th.op.Target().hash);
      s' := Become(s, t, Match(pc.i, pc.g, pc.j + 1, if hit then pc.mask + {pc.j} else pc.mask, pc.c));
    } else {
      s' := Become(s, t,
        if pc.mask == {} then CheckOverflow(pc.i, pc.g, pc.c) else Acquire(pc.i, pc.g, pc.mask, pc.c));
    }
  }

  lemma AcquireGoesOn(s: State, t: nat) returns (s': State)
    requires Shape(s) && Alone(s, t) && s.threads[t].pc.Acquire?
    ensures LookupStep(s, t, s')
  {
    var pc := s.threads[t].pc;
    s' := Become(s, t, Scan(pc.i, pc.g, pc.mask, pc.c));
    AloneLocks(s, t, Held(s'.threads[t]));
  }

  lemma OverflowGoesOn(s: State, t: nat) returns (s': State)
    requires Shape(s) && t < |s.threads| && s.threads[t].pc.CheckOverflow?
    ensures LookupStep(s, t, s')
  {
    var th := s.threads[t];
    var pc := th.pc;
    assert PcShape(s.arr, th) && pc.g < |s.arr.over|;
    s' := Become(s, t,
      if th.op.Target().hash % 8 in s.arr.over[pc.g] && pc.i + 1 < |s.arr.over| then
        Match(pc.i + 1, Masked(pc.g + (pc.i + 1), |s.arr.over|), 0, {}, pc.c)
      else if th.op.Insert? then ReserveSize(pc.c)
      else Outside(Reply(0, None)));
  }

  lemma FoundGoesOn(s: State, t: nat) returns (s': State)
    requires Shape(s) && t < |s.threads| && s.threads[t].pc.Found?
    ensures LookupStep(s, t, s')
  {
    assert PcShape(s.arr, s.threads[t]);
    if s.threads[t].op.Erase? {
      s' := EraseFound(s, t);
    } else {
      s' := VisitFound(s, t);
    }
  }

  lemma EraseFound(s: State, t: nat) returns (s': State)
    requires Shape(s) && t < |s.threads| && s.threads[t].pc.Found? && s.threads[t].pc.x < |s.arr.slots|
    requires s.threads[t].op.Erase?
    ensures LookupStep(s, t, s')
  {
    var key, x := s.threads[t].op.Target(), s.threads[t].pc.x;
    s' := Become(SetTable(SetClaim(SetSlot(s, x, s.arr.slots[x].(elem := None)), x, None), s.table - {key}), t,
                 EraseLoad(x));
  }

  lemma VisitFound(s: State, t: nat) returns (s': State)
    requires Shape(s) && t < |s.threads| && s.threads[t].pc.Found? && s.threads[t].pc.x < |s.arr.slots|
    requires !s.threads[t].op.Erase?
    ensures LookupStep(s, t, s')
  {
    var th := s.threads[t];
    var key, x := th.op.Target(), th.pc.x;
    var value := ValueIn(s.arr.slots[x]);
    var reply := Reply(if th.op.Insert? then 0 else 1, Some(value));
    if th.op.LocksExclusively() {
      s' := Become(SetTable(SetSlot(s, x, s.arr.slots[x].(elem := Some(Elem(key, th.op.update(value))))),
                            Updated(s.table, key, th.op.update)), t, Leave(x / 15, true, reply));
    } else {
      s' := Become(s, t, Leave(x / 15, false, reply));
    }
  }

  lemma EraseGoesOn(s: State, t: nat) returns (s': State)
    requires Shape(s) && t < |s.threads|
    requires var pc := s.threads[t].pc; pc.EraseLoad? || pc.EraseReset? || pc.EraseCount?
    ensures EraseStep(s, t, s')
  {
    assert PcShape(s.arr, s.threads[t]);
    match s.threads[t].pc
    case EraseLoad(x) =>
      var d := if s.arr.slots[x].meta % 8 in s.arr.over[x / 15] then 1 else 0;
      s' := Become(s, t, EraseReset(x, d)).(ml := s.ml - d);
    case EraseReset(x, d) =>
      s' := Become(SetSlot(s, x, s.arr.slots[x].(meta := AVAILABLE)), t, EraseCount(x, d));
    case EraseCount(x, d) =>
      s' := Become(s, t, Leave(x / 15, true, Reply(1, None))).(size := s.size - 1);
  }

  lemma PickGoesOn(s: State, t: nat) returns (s': State)
    requires Shape(s) && t < |s.threads| && s.threads[t].pc.PickSlot?
    ensures ReserveStep(s, t, s')
  {
    PicksInBounds(s, t);
    if GroupFull(s.arr, s.threads[t].pc.g) {
      s' := PassGoesOn(s, t);
    } else {
      s' := TakeGoesOn(s, t);
    }
  }

  lemma PicksInBounds(s: State, t: nat)
    requires Shape(s) && t < |s.threads| && s.threads[t].pc.PickSlot?
    ensures s.threads[t].pc.g < |s.arr.over| && 15 * s.threads[t].pc.g + 15 <= |s.arr.slots|
  {
    assert PcShape(s.arr, s.threads[t]);
  }

  lemma PassGoesOn(s: State, t: nat) returns (s': State)
    requires Shape(s) && t < |s.threads| && s.threads[t].pc.PickSlot? && s.threads[t].pc.g < |s.arr.over|
    requires GroupFull(s.arr, s.threads[t].pc.g)
    ensures ReserveStep(s, t, s')
  {
    var th := s.threads[t];
    s' := Become(MarkGroup(s, th.pc.g, th.op.Target()), t, Overflowed(th.pc.i, th.pc.g, th.pc.c));
  }

  lemma TakeGoesOn(s: State, t: nat) returns (s': State)
    requires Shape(s) && t < |s.threads| && s.threads[t].pc.PickSlot? && s.threads[t].pc.g < |s.arr.over|
    requires 15 * s.threads[t].pc.g + 15 <= |s.arr.slots| && !GroupFull(s.arr, s.threads[t].pc.g)
    ensures ReserveStep(s, t, s')
  {
    var th := s.threads[t];
    var x := LowestFree(s.arr, th.pc.g, 0);
    s' := Become(SetSlot(s, x, Slot(ReducedHash(th.op.Target().hash), None)), t, Bump(th.pc.i, x, th.pc.c));
    TakesIsStep(s, t, x, s');
  }

  lemma TakesIsStep(s: State, t: nat, x: nat, s': State)
    requires Shape(s) && t < |s.threads| && s.threads[t].pc.PickSlot? && s.threads[t].pc.g < |s.arr.over|
    requires !GroupFull(s.arr, s.threads[t].pc.g) && FirstAvailable(s.arr, s.threads[t].pc.g, x) && Takes(s, t, x, s')
    ensures ReserveStep(s, t, s')
  {
  }

  predicate Reserving(pc: Pc) {
    pc.ReadCounter? || pc.ReserveSize? || pc.CheckSize? || pc.GiveBack? || pc.AcquireSlot? || pc.Overflowed?
  }

  lemma ReserveGoesOn(s: State, t: nat) returns (s': State)
    requires Shape(s) && Alone(s, t) && Reserving(s.threads[t].pc)
    ensures ReserveStep(s, t, s')
  {
    var th := s.threads[t];
    var home := Home(s.arr.bits, th.op.Target());
    assert PcShape(s.arr, th) && home < |s.count|;
    match th.pc
    case ReadCounter =>
      s' := Become(s, t, Match(0, home, 0, {}, s.count[home]));
    case ReserveSize(c) =>
      s' := Become(s, t, CheckSize(c, s.size + 1)).(size := s.size + 1);
    case CheckSize(c, reserved) =>
      s' := Become(s, t, if reserved <= s.ml then AcquireSlot(0, home, c) else GiveBack);
    case GiveBack =>
      s' := Become(s, t, Full).(size := s.size - 1);
    case AcquireSlot(i, g, c) =>
      s' := Become(s, t, PickSlot(i, g, c));
      AloneLocks(s, t, Exclusive(g));
    case Overflowed(i, g, c) =>
      s' := Become(s, t, AcquireSlot(i + 1, Masked(g + (i + 1), |s.arr.over|), c));
  }

  lemma WinGoesOn(s: State, t: nat) returns (s': State)
    requires Shape(s) && t < |s.threads| && s.threads[t].pc.Bump? && Commits(s, t)
    ensures CommitStep(s, t, s')
  {
    var th := s.threads[t];
    var key, home := th.op.Target(), Home(s.arr.bits, th.op.Target());
    assert PcShape(s.arr, th);
    match th.pc
    case Bump(_, x, c) =>
      s' := Become(SetTable(SetClaim(Counted(s, home), x, Some(key)), s.table[key := th.op.initial(th.op.elem.val)]),
                   t, Construct(x));
  }

  lemma LossGoesOn(s: State, t: nat) returns (s': State)
    requires Shape(s) && t < |s.threads| && s.threads[t].pc.Bump? && !Commits(s, t)
    ensures CommitStep(s, t, s')
  {
    match s.threads[t].pc
    case Bump(_, x, c) =>
      s' := Become(Counted(s, Home(s.arr.bits, s.threads[t].op.Target())), t, Undo(x));
  }

  lemma UndoGoesOn(s: State, t: nat) returns (s': State)
    requires Shape(s) && t < |s.threads|
    requires var pc := s.threads[t].pc; pc.Undo? || pc.UndoRelease? || pc.UndoSize?
    ensures CommitStep(s, t, s')
  {
    assert PcShape(s.arr, s.threads[t]);
    match s.threads[t].pc
    case Undo(x) =>
      s' := Become(SetSlot(s, x, s.arr.slots[x].(meta := AVAILABLE)), t, UndoRelease(x));
    case UndoRelease(x) =>
      s' := Become(s, t, UndoSize);
    case UndoSize =>
      s' := Become(s, t, ReadCounter).(size := s.size - 1);
  }

  lemma ConstructGoesOn(s: State, t: nat) returns (s': State)
    requires Shape(s) && t < |s.threads| && s.threads[t].pc.Construct?
    ensures CommitStep(s, t, s')
  {
    assert PcShape(s.arr, s.threads[t]);
    match s.threads[t].pc
    case Construct(x) =>
      s' := Become(SetSlot(s, x, s.arr.slots[x].(elem := Some(s.threads[t].op.elem))), t, Inserted(x));
  }

  lemma InsertedGoesOn(s: State, t: nat) returns (s': State)
    requires Shape(s) && t < |s.threads| && s.threads[t].pc.Inserted?
    ensures CommitStep(s, t, s')
  {
    var op := s.threads[t].op;
    assert PcShape(s.arr, s.threads[t]);
    match s.threads[t].pc
    case Inserted(x) =>
      var value := ValueIn(s.arr.slots[x]);
      s' := Become(SetSlot(s, x, s.arr.slots[x].(elem := Some(Elem(op.Target(), op.initial(value))))), t,
                   Leave(x / 15, true, Reply(1, Some(value))));
  }

  /** Before an insertion is decided the table may still have to grow. */
  predicate MayFill(th: Thread) {
    th.op.Insert? && !th.pc.Outside? && !th.pc.Leave? && !th.pc.Found? && !Constructing(th.pc)
  }

  /** If it does, the arrays it asks for can be addressed. */
  predicate CanGrow(s: State, t: nat)
    requires t < |s.threads|
  {
    MayFill(s.threads[t]) && Elements(s, t) >= 0 ==> Growable(Elements(s, t))
  }

  lemma RehashGoesOn(s: State, t: nat) returns (s': State)
    requires Inv(s) && Accounts(s) && Alone(s, t) && CanGrow(s, t) && s.threads[t].pc.Full?
    ensures ExclusiveStep(s, t, s')
  {
    assert PcShape(s.arr, s.threads[t]);
    if s.size == s.ml {
      FullIsValid(s, t);
      var b := RegrownExists(s.arr, s.size);
      s' := RehashesTo(s, t, b);
    } else {
      s' := Become(s, t, Reenter);
    }
  }

  lemma FullIsValid(s: State, t: nat)
    requires Inv(s) && Accounts(s) && Alone(s, t) && s.threads[t].pc.Full?
    ensures Tables.Valid(s.arr) && s.size == Sum(s.arr.slots, Holds) == Elements(s, t) >= 0
  {
    AloneSettled(s, t);
    AloneIsResting(s, t);
    LimitNeverUnderflows(s);
  }

  lemma RehashesTo(s: State, t: nat, b: Arrays) returns (s': State)
    requires Shape(s) && Alone(s, t) && s.threads[t].pc.Full? && s.size == s.ml && Regrown(s.arr, s.size, b)
    ensures ExclusiveStep(s, t, s')
  {
    s' := Become(State(
      b, seq(|b.over|, _ => 0), seq(|b.slots|, x requires 0 <= x < |b.slots| => KeyIn(b.slots[x])), s.table,
      s.size, InitialMaxLoad(b.Capacity()), s.threads), t, Reenter);
  }

  /** While nobody else is inside, an operation always has a step. */
  lemma NeverStuck(s: State, t: nat) returns (s': State)
    requires Inv(s) && Accounts(s) && Alone(s, t) && CanGrow(s, t) && !s.threads[t].pc.Outside?
    ensures Step(s, t, s')
  {
    var pc := s.threads[t].pc;
    if pc.Scan? {
      s' := ScanGoesOn(s, t);
    } else if pc.Found? {
      s' := FoundGoesOn(s, t);
    } else if pc.Match? {
      s' := MatchGoesOn(s, t);
    } else if pc.Acquire? {
      s' := AcquireGoesOn(s, t);
    } else if pc.CheckOverflow? {
      s' := OverflowGoesOn(s, t);
    } else if pc.Leave? {
      s' := Become(s, t, Outside(pc.reply));
    } else if pc.PickSlot? {
      s' := PickGoesOn(s, t);
    } else if Reserving(pc) {
      s' := ReserveGoesOn(s, t);
    } else if pc.Bump? {
      if Commits(s, t) {
        s' := WinGoesOn(s, t);
      } else {
        s' := LossGoesOn(s, t);
      }
    } else if pc.Construct? {
      s' := ConstructGoesOn(s, t);
    } else if pc.Inserted? {
      s' := InsertedGoesOn(s, t);
    } else if pc.Undo? || pc.UndoRelease? || pc.UndoSize? {
      s' := UndoGoesOn(s, t);
    } else if pc.Full? {
      s' := RehashGoesOn(s, t);
    } else if pc.Reenter? {
      s' := Become(s, t, ReadCounter);
    } else {
      s' := EraseGoesOn(s, t);
    }
  }

  // ----- left alone -----

  /** What a step of t keeps as long as nobody else is inside. */
  ghost predicate LeftAlone(s: State, t: nat) {
    Sound(s) && Alone(s, t)
  }

  /** An action of thread t in the middle of an operation. */
  ghost predicate SoloStep(s: State, t: nat, s': State) {
    Shape(s) && t < |s.threads| && !s.threads[t].pc.Outside? && Step(s, t, s')
  }

  lemma AloneStays(s: State, t: nat, s': State)
    requires LeftAlone(s, t) && SoloStep(s, t, s')
    ensures LeftAlone(s', t)
  {
    StepSound(s, t, s');
    SameThreads(s, t, s');
  }

  lemma SoloSpends(s: State, t: nat, s': State)
    requires LeftAlone(s, t) && SoloStep(s, t, s')
    ensures LeftAlone(s', t) && Budget(s', t) < Budget(s, t)
  {
    AloneStays(s, t, s');
    StepSpendsBudget(s, t, s');
  }

  lemma BudgetBounds(s: State, t: nat)
    requires Shape(s) && t < |s.threads|
    ensures 0 <= Budget(s, t) <= 39 * (2 * |s.arr.over| + GroupsGrown(Elements(s, t))) + 24
  {
    if Looking(s.threads[t].pc) {
      assert PcShape(s.arr, s.threads[t]);
      EffortBounds(s.arr, s.threads[t]);
    }
  }

  ghost predicate SoloAt(run: seq<State>, m: nat, t: nat)
    requires m + 1 < |run|
  {
    SoloStep(run[m], t, run[m + 1])
  }

  /** From state i to state j only thread t moves, within one operation. */
  ghost predicate Solo(run: seq<State>, i: nat, j: nat, t: nat)
    requires j < |run|
  {
    forall m :: i <= m < j ==> SoloAt(run, m, t)
  }

  ghost predicate KeepsAlone(run: seq<State>, m: nat, t: nat)
    requires m + 1 < |run|
  {
    Alone(run[m], t) ==> Alone(run[m + 1], t)
  }

  lemma SoloKeepsAlone(run: seq<State>, i: nat, j: nat, t: nat)
    requires i <= j < |run| && Solo(run, i, j, t)
    ensures forall m :: i <= m < j ==> KeepsAlone(run, m, t)
  {
    forall m | i <= m < j ensures KeepsAlone(run, m, t) {
      assert SoloAt(run, m, t);
      if Alone(run[m], t) {
        OthersStayApart(run[m], t, run[m + 1]);
      }
    }
  }

  lemma {:induction false} AloneAt(run: seq<State>, i: nat, j: nat, t: nat, n: nat)
    requires i <= n <= j < |run| && Alone(run[i], t) && forall m :: i <= m < j ==> KeepsAlone(run, m, t)
    ensures Alone(run[n], t)
    decreases n
  {
    if i < n {
      AloneAt(run, i, j, t, n - 1);
      assert KeepsAlone(run, n - 1, t);
    }
  }

  lemma StaysAlone(run: seq<State>, i: nat, j: nat, t: nat, n: nat)
    requires i <= n <= j < |run| && Alone(run[i], t) && Solo(run, i, j, t)
    ensures Alone(run[n], t)
  {
    SoloKeepsAlone(run, i, j, t);
    AloneAt(run, i, j, t, n);
  }

  lemma OthersStayApart(s: State, t: nat, s': State)
    requires Alone(s, t) && SoloStep(s, t, s')
    ensures Alone(s', t)
  {
    SameThreads(s, t, s');
  }

  ghost function BudgetAt(run: seq<State>, n: nat, t: nat): int
    requires n < |run|
  {
    if Shape(run[n]) && t < |run[n].threads| then Budget(run[n], t) else 0
  }

  lemma BudgetFalls(run: seq<State>, i: nat, j: nat, t: nat, n: nat)
    requires IsRun(run) && i <= n < j < |run| && Alone(run[i], t) && Solo(run, i, j, t)
    ensures BudgetAt(run, n + 1, t) < BudgetAt(run, n, t)
  {
    RunSound(run, n);
    StaysAlone(run, i, j, t, n);
    assert SoloAt(run, n, t);
    SoloSpends(run[n], t, run[n + 1]);
  }

  lemma {:induction false} Falling(b: seq<int>)
    requires |b| > 0 && forall m :: 0 < m < |b| ==> b[m] < b[m - 1]
    ensures b[|b| - 1] + (|b| - 1) <= b[0]
  {
    if |b| > 1 {
      Falling(b[..|b| - 1]);
    }
  }

  lemma SoloRunSpends(run: seq<State>, i: nat, j: nat, t: nat)
    requires IsRun(run) && i <= j < |run| && Alone(run[i], t) && Solo(run, i, j, t)
    ensures BudgetAt(run, j, t) + (j - i) <= BudgetAt(run, i, t)
  {
    var b := seq(j - i + 1, n requires 0 <= n <= j - i => BudgetAt(run, i + n, t));
    forall m | 0 < m < |b| ensures b[m] < b[m - 1] {
      BudgetFalls(run, i, j, t, i + m - 1);
    }
    Falling(b);
  }

  /** In every run, while nobody else is inside, an operation takes no more than 39 steps for
      each group there is, twice over, and for each group there would be after growing. */
  lemma SoloIsBounded(run: seq<State>, i: nat, j: nat, t: nat)
    requires IsRun(run) && i <= j < |run| && Alone(run[i], t) && Solo(run, i, j, t)
    ensures j - i <= 39 * (2 * |run[i].arr.over| + GroupsGrown(Elements(run[i], t))) + 24
  {
    RunSound(run, i);
    RunSound(run, j);
    StaysAlone(run, i, j, t, j);
    SoloRunSpends(run, i, j, t);
    BudgetBounds(run[i], t);
    BudgetBounds(run[j], t);
  }

  lemma InnerCanGrow(s: State, t: nat, s': State)
    requires Shape(s) && t < |s.threads| && InnerStep(s, t, s') && CanGrow(s, t)
    ensures t < |s'.threads| && CanGrow(s', t)
  {
    SizeMoves(s, t, s');
    InnerQuiet(s, t, s');
    if MayFill(s'.threads[t]) {
      InnerMayFill(s, t, s');
    }
  }

  lemma InnerMayFill(s: State, t: nat, s': State)
    requires Shape(s) && t < |s.threads| && InnerStep(s, t, s') && Quiet(s, t, s')
    requires s'.threads[t].op == s.threads[t].op && MayFill(s'.threads[t])
    ensures MayFill(s.threads[t]) && ClaimChange(s, t) == 0
  {
    if LookupStep(s, t, s') {
      LookupMayFill(s, t, s');
    } else if CommitStep(s, t, s') {
      CommitMayFill(s, t, s');
    } else {
      ReserveMayFill(s, t, s');
    }
  }

  lemma LookupMayFill(s: State, t: nat, s': State)
    requires Shape(s) && t < |s.threads| && LookupStep(s, t, s') && t < |s'.threads| && MayFill(s'.threads[t])
    ensures MayFill(s.threads[t]) && ClaimChange(s, t) == 0
  {
  }

  lemma CommitMayFill(s: State, t: nat, s': State)
    requires Shape(s) && t < |s.threads| && CommitStep(s, t, s') && t < |s'.threads| && MayFill(s'.threads[t])
    ensures MayFill(s.threads[t]) && ClaimChange(s, t) == 0
  {
  }

  lemma ReserveMayFill(s: State, t: nat, s': State)
    requires Shape(s) && t < |s.threads| && (ReserveStep(s, t, s') || EraseStep(s, t, s'))
    requires t < |s'.threads| && MayFill(s'.threads[t])
    ensures MayFill(s.threads[t]) && ClaimChange(s, t) == 0
  {
  }

  lemma ExclusiveCanGrow(s: State, t: nat, s': State)
    requires Shape(s) && t < |s.threads| && ExclusiveStep(s, t, s') && CanGrow(s, t) && !s.threads[t].pc.Outside?
    ensures t < |s'.threads| && CanGrow(s', t)
  {
    assert PcShape(s.arr, s.threads[t]);
  }

  lemma StillCanGrow(s: State, t: nat, s': State)
    requires SoloStep(s, t, s') && CanGrow(s, t)
    ensures t < |s'.threads| && CanGrow(s', t)
  {
    if InnerStep(s, t, s') {
      InnerCanGrow(s, t, s');
    } else {
      ExclusiveCanGrow(s, t, s');
    }
  }

  lemma SoloGoesOn(s: State, t: nat) returns (s': State)
    requires LeftAlone(s, t) && CanGrow(s, t) && !s.threads[t].pc.Outside?
    ensures SoloStep(s, t, s') && LeftAlone(s', t) && CanGrow(s', t) && 0 <= Budget(s', t) < Budget(s, t)
  {
    s' := NeverStuck(s, t);
    SoloSpends(s, t, s');
    StillCanGrow(s, t, s');
    BudgetBounds(s', t);
  }

  lemma SoloFirst(s: State, t: nat, rest: seq<State>)
    requires |rest| > 0 && SoloStep(s, t, rest[0]) && Solo(rest, 0, |rest| - 1, t)
    ensures Solo([s] + rest, 0, |rest|, t)
  {
    var path := [s] + rest;
    forall m | 0 <= m < |rest| ensures SoloAt(path, m, t) {
      if m > 0 {
        assert SoloAt(rest, m - 1, t);
      }
    }
  }

  lemma {:induction false} PathOut(s: State, t: nat) returns (path: seq<State>)
    requires LeftAlone(s, t) && CanGrow(s, t)
    ensures |path| > 0 && path[0] == s && Solo(path, 0, |path| - 1, t)
    ensures t < |path[|path| - 1].threads| && path[|path| - 1].threads[t].pc.Outside?
    decreases Budget(s, t)
  {
    if s.threads[t].pc.Outside? {
      path := [s];
    } else {
      var s' := SoloGoesOn(s, t);
      var rest := PathOut(s', t);
      SoloFirst(s, t, rest);
      path := [s] + rest;
    }
  }

  lemma Continued(run: seq<State>, path: seq<State>, t: nat)
    requires IsRun(run) && |path| > 0 && path[0] == run[|run| - 1] && Solo(path, 0, |path| - 1, t)
    ensures IsRun(run + path[1..]) && Solo(run + path[1..], |run| - 1, |run| + |path| - 2, t)
  {
    var longer := run + path[1..];
    forall m | |run| - 1 <= m < |longer| - 1 ensures StepAt(longer, m) && SoloAt(longer, m, t) {
      var n := m - (|run| - 1);
      assert longer[m] == path[n] && longer[m + 1] == path[n + 1];
      assert SoloAt(path, n, t);
    }
    forall m | 0 <= m < |longer| - 1 ensures StepAt(longer, m) {
      if m < |run| - 1 {
        assert StepAt(run, m);
      }
    }
  }

  /** Obstruction freedom: from every state of every run in which all threads but t are apart,
      wherever t itself is, t's own steps lead to the end of its operation, and however they
      are taken, they are bounded. */
  lemma LeftAloneFinishes(run: seq<State>, t: nat) returns (longer: seq<State>)
    requires IsRun(run) && Alone(run[|run| - 1], t) && CanGrow(run[|run| - 1], t)
    ensures IsRun(longer) && run <= longer && Solo(longer, |run| - 1, |longer| - 1, t)
    ensures t < |longer[|longer| - 1].threads| && longer[|longer| - 1].threads[t].pc.Outside?
    ensures var s := run[|run| - 1];
      |longer| - |run| <= 39 * (2 * |s.arr.over| + GroupsGrown(Elements(s, t))) + 24
  {
    RunSound(run, |run| - 1);
    var path := PathOut(run[|run| - 1], t);
    Continued(run, path, t);
    longer := run + path[1..];
    assert longer[|longer| - 1] == path[|path| - 1];
    SoloIsBounded(longer, |run| - 1, |longer| - 1, t);
  }

  // ----- what the operation answers -----

  lemma SoloMoves(run: seq<State>, m: nat, t: nat)
    requires m + 1 < |run| && SoloStep(run[m], t, run[m + 1])
    ensures Moves(run, m, t)
  {
    if InnerStep(run[m], t, run[m + 1]) {
      InnerMovesOn(run[m], t, run[m + 1]);
    }
  }

  lemma InnerMovesOn(s: State, t: nat, s': State)
    requires Shape(s) && t < |s.threads| && InnerStep(s, t, s')
    ensures t < |s'.threads| && s'.threads[t] != s.threads[t]
  {
    if LookupStep(s, t, s') {
      LookupMovesOn(s, t, s');
    } else if CommitStep(s, t, s') {
      CommitMovesOn(s, t, s');
    } else {
      ReserveMovesOn(s, t, s');
    }
  }

  lemma LookupMovesOn(s: State, t: nat, s': State)
    requires Shape(s) && t < |s.threads| && LookupStep(s, t, s')
    ensures t < |s'.threads| && s'.threads[t] != s.threads[t]
  {
  }

  lemma CommitMovesOn(s: State, t: nat, s': State)
    requires Shape(s) && t < |s.threads| && CommitStep(s, t, s')
    ensures t < |s'.threads| && s'.threads[t] != s.threads[t]
  {
  }

  lemma ReserveMovesOn(s: State, t: nat, s': State)
    requires Shape(s) && t < |s.threads| && (ReserveStep(s, t, s') || EraseStep(s, t, s'))
    ensures t < |s'.threads| && s'.threads[t] != s.threads[t]
  {
  }

  lemma {:induction false} SilentSame(run: seq<State>, i: nat, j: nat, t: nat, m: nat, n: nat)
    requires i <= m <= n <= j < |run| && Solo(run, i, j, t) && Silent(run, m, n, t)
    ensures run[n].table == run[m].table
    decreases n
  {
    if m < n {
      SilentSame(run, i, j, t, m, n - 1);
      assert SoloAt(run, n - 1, t);
      SilentStep(run, m, n, t);
    }
  }

  lemma SilentStep(run: seq<State>, i: nat, m: nat, t: nat)
    requires i < m < |run| && SoloStep(run[m - 1], t, run[m]) && Silent(run, i, m, t)
    ensures run[m].table == run[m - 1].table
  {
    SoloMoves(run, m - 1, t);
    assert TableStays(run, m - 1);
  }

  /** An operation during which nobody else moves does to the map, and answers, just what
      the plain map does: an insertion of an absent key returns 1 and its element is there. */
  lemma SoloAnswer(run: seq<State>, i: nat, j: nat, t: nat)
    requires IsRun(run) && Operation(run, i, j, t) && Solo(run, i, j, t)
    ensures (run[j].table, run[j].threads[t].pc.reply) == Apply(run[i].table, run[i].threads[t].op)
    ensures Keys(run[j]) == Apply(run[i].table, run[i].threads[t].op).0.Keys
  {
    var op, reply := run[i].threads[t].op, run[j].threads[t].pc.reply;
    EveryOperationLinearizes(run, i, j, t);
    var p :| i <= p < j && PointAt(run, i, j, t, op, reply, p);
    RunTable(run, j);
    if Apply(run[p].table, op).0 == run[p].table {
      SilentSame(run, i, j, t, i, p);
      SilentSame(run, i, j, t, i, j);
    } else {
      assert Silent(run, i, p, t) && Silent(run, p + 1, j, t);
      SilentSame(run, i, j, t, i, p);
      SilentSame(run, i, j, t, p + 1, j);
    }
  }

  // ----- from beginning to end -----

  function Begun(s: State, t: nat, op: Op): State
    requires s.arr.bits <= 64 && t < |s.threads|
  {
    s.(threads := s.threads[t := Thread(op,
      if op.Insert? then ReadCounter else Match(0, Home(s.arr.bits, op.Target()), 0, {}, 0))])
  }

  lemma MayBegin(s: State, t: nat, op: Op)
    requires Shape(s) && t < |s.threads| && s.threads[t].pc.Outside?
    ensures Step(s, t, Begun(s, t, op))
  {
    assert ExclusiveStep(s, t, Begun(s, t, op));
  }

  lemma BegunGrows(s: State, t: nat, op: Op)
    requires Shape(s) && Alone(s, t) && s.threads[t].pc.Outside? && (op.Insert? && s.size >= 0 ==> Growable(s.size))
    ensures var s' := Begun(s, t, op);
      Alone(s', t) && CanGrow(s', t) && Elements(s', t) == s.size && s'.table == s.table && s'.arr == s.arr
  {
  }

  lemma Extended(run: seq<State>, t: nat, s': State)
    requires IsRun(run) && Shape(run[|run| - 1]) && t < |run[|run| - 1].threads| && Step(run[|run| - 1], t, s')
    ensures IsRun(run + [s'])
  {
    var longer := run + [s'];
    forall m | 0 <= m < |longer| - 1 ensures StepAt(longer, m) {
      if m < |run| - 1 {
        assert StepAt(run, m);
      }
    }
  }

  lemma SoloStaysInside(run: seq<State>, i: nat, j: nat, t: nat)
    requires IsRun(run) && 0 < i <= j < |run| && Solo(run, i, j, t)
    requires t < |run[i - 1].threads| && run[i - 1].threads[t].pc.Outside?
    requires t < |run[j].threads| && run[j].threads[t].pc.Outside? && i < j
    ensures Operation(run, i, j, t)
  {
    forall m | i <= m < j ensures t < |run[m].threads| && !run[m].threads[t].pc.Outside? {
      assert SoloAt(run, m, t);
    }
  }

  lemma BeginsAlone(run: seq<State>, t: nat, op: Op) returns (s': State)
    requires IsRun(run) && Alone(run[|run| - 1], t) && run[|run| - 1].threads[t].pc.Outside?
    requires op.Insert? && run[|run| - 1].size >= 0 ==> Growable(run[|run| - 1].size)
    ensures IsRun(run + [s']) && Alone(s', t) && CanGrow(s', t) && s'.threads[t].op == op && !s'.threads[t].pc.Outside?
    ensures var s := run[|run| - 1];
      Elements(s', t) == s.size && s'.table == s.table && s'.arr == s.arr
  {
    var s := run[|run| - 1];
    RunInv(run, |run| - 1);
    MayBegin(s, t, op);
    BegunGrows(s, t, op);
    s' := Begun(s, t, op);
    Extended(run, t, s');
  }

  /** Any operation that a thread begins while nobody else is inside can be carried out at
      once, in boundedly many steps, and does what the plain map does: in particular an
      insertion of an absent key returns 1 and its key is there, also in a full table. */
  lemma OperationAlone(run: seq<State>, t: nat, op: Op) returns (longer: seq<State>)
    requires IsRun(run) && Alone(run[|run| - 1], t) && run[|run| - 1].threads[t].pc.Outside?
    requires op.Insert? && run[|run| - 1].size >= 0 ==> Growable(run[|run| - 1].size)
    ensures IsRun(longer) && run <= longer && Operation(longer, |run|, |longer| - 1, t)
    ensures Solo(longer, |run|, |longer| - 1, t) && longer[|run|].threads[t].op == op
    ensures var s, s' := run[|run| - 1], longer[|longer| - 1];
      && (s'.table, s'.threads[t].pc.reply) == Apply(s.table, op) && Keys(s') == s'.table.Keys
      && |longer| - |run| <= 39 * (2 * |s.arr.over| + GroupsGrown(s.size)) + 25
  {
    var s' := BeginsAlone(run, t, op);
    longer := LeftAloneFinishes(run + [s'], t);
    assert longer[|run|] == s' && longer[|run| - 1] == run[|run| - 1];
    SoloStaysInside(longer, |run|, |longer| - 1, t);
    SoloAnswer(longer, |run|, |longer| - 1, t);
  }
}
