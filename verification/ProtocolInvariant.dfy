/** What every interleaving of the optimistic insertion protocol keeps. */
module ProtocolInvariant {
  import opened Probing
  import opened Tables
  import opened TableModel
  import opened Protocol

  ghost predicate LocksOk(s: State) {
    forall t, u :: 0 <= t < u < |s.threads| ==> Compatible(Held(s.threads[t]), Held(s.threads[u]))
  }

  /** The slot that a thread has half changed. */
  function Work(th: Thread): Option<nat> {
    match th.pc
    case EraseLoad(x) => Some(x)
    case EraseReset(x, _) => Some(x)
    case Bump(_, x, _) => Some(x)
    case Undo(x) => Some(x)
    case Construct(x) => Some(x)
    case _ => None
  }

  ghost predicate SlotSettled(s: State, x: nat)
    requires x < |s.arr.slots| == |s.claim|
  {
    Settled(s.arr, x) && s.claim[x] == KeyIn(s.arr.slots[x])
  }

  ghost predicate InWork(s: State, x: nat) {
    exists t :: 0 <= t < |s.threads| && Work(s.threads[t]) == Some(x)
  }

  ghost predicate SlotsOk(s: State)
    requires Shape(s)
  {
    forall x :: 0 <= x < |s.arr.slots| ==> SlotSettled(s, x) || InWork(s, x)
  }

  ghost predicate WorkOk(s: State, th: Thread)
    requires Shape(s) && PcShape(s.arr, th)
  {
    Work(th).Some? ==>
      var x := Work(th).value;
      && !s.arr.SentinelAt(x)
      && s.arr.slots[x] == Slot(ReducedHash(th.op.Target().hash), None)
      && s.claim[x] == (if th.pc.Construct? then Some(th.op.Target()) else None)
  }

  ghost predicate FoundOk(s: State, th: Thread)
    requires Shape(s) && PcShape(s.arr, th)
  {
    && (th.pc.Found? ==> KeyIn(s.arr.slots[th.pc.x]) == Some(th.op.Target()))
    && (th.pc.Inserted? ==> KeyIn(s.arr.slots[th.pc.x]) == Some(th.op.Target()))
  }

  ghost predicate MarkOk(s: State, th: Thread)
    requires Shape(s)
  {
    var key := th.op.Target();
    match th.pc
    case AcquireSlot(i, _, _) => Marked(s.arr, key, i)
    case PickSlot(i, _, _) => Marked(s.arr, key, i)
    case Overflowed(i, _, _) => Marked(s.arr, key, i + 1)
    case Bump(i, _, _) => Marked(s.arr, key, i)
    case _ => true
  }

  ghost predicate ClaimsReachable(s: State)
    requires Shape(s)
  {
    forall x :: 0 <= x < |s.claim| && s.claim[x].Some? ==> Reaches(s.arr, s.claim[x].value, x / 15)
  }

  ghost predicate ClaimsUnique(s: State) {
    forall x, y :: 0 <= x < y < |s.claim| && s.claim[x].Some? ==> s.claim[x] != s.claim[y]
  }

  /** The lookup of a thread has not yet gone past slot x, which holds its key. */
  ghost predicate Ahead(a: Arrays, th: Thread, x: nat)
    requires a.WellFormed() && x < |a.slots|
  {
    var r := Rank(a, th.op.Target(), x / 15);
    match th.pc
    case Match(i, g, j, mask, c) => r > i || (r == i && (x % 15 >= j || x % 15 in mask))
    case Acquire(i, g, mask, c) => r > i || (r == i && x % 15 in mask)
    case Scan(i, g, mask, c) => r > i || (r == i && x % 15 in mask)
    case CheckOverflow(i, g, c) => r > i
    case ReserveSize(_) => false
    case CheckSize(_, _) => false
    case AcquireSlot(_, _, _) => false
    case PickSlot(_, _, _) => false
    case Overflowed(_, _, _) => false
    case Bump(_, _, _) => false
    case _ => true
  }

  function Recorded(th: Thread): Option<nat> {
    if !th.op.Insert? then None else
      match th.pc
      case Match(_, _, _, _, c) => Some(c)
      case Acquire(_, _, _, c) => Some(c)
      case Scan(_, _, _, c) => Some(c)
      case CheckOverflow(_, _, c) => Some(c)
      case ReserveSize(c) => Some(c)
      case CheckSize(c, _) => Some(c)
      case AcquireSlot(_, _, c) => Some(c)
      case PickSlot(_, _, c) => Some(c)
      case Overflowed(_, _, c) => Some(c)
      case Bump(_, _, c) => Some(c)
      case _ => None
  }

  /** An inserter whose recorded counter is still current has not overlooked a claim
      on its key. */
  ghost predicate Fresh(s: State, th: Thread)
    requires Shape(s)
  {
    Recorded(th).Some? ==>
      var now := s.count[Home(s.arr.bits, th.op.Target())];
      && Recorded(th).value <= now
      && (Recorded(th).value == now ==>
           forall x :: 0 <= x < |s.claim| && s.claim[x] == Some(th.op.Target()) ==> Ahead(s.arr, th, x))
  }

  ghost predicate ThreadOk(s: State, th: Thread)
    requires Shape(s) && PcShape(s.arr, th)
  {
    WorkOk(s, th) && FoundOk(s, th) && MarkOk(s, th) && Fresh(s, th)
  }

  ghost predicate Inv(s: State) {
    && Shape(s)
    && LocksOk(s)
    && SlotsOk(s)
    && ClaimsReachable(s)
    && ClaimsUnique(s)
    && forall t :: 0 <= t < |s.threads| ==> ThreadOk(s, s.threads[t])
  }

  // ----- what a step of thread t leaves alone -----

  /** Only thread t moves; arrays keep their size; overflow bits and counters only
      grow; slots change only in a group that t holds exclusively; and a new claim
      moves its home group's counter. */
  ghost predicate Quiet(s: State, t: nat, s': State)
    requires Shape(s) && t < |s.threads|
  {
    && |s'.threads| == |s.threads| && s'.threads == s.threads[t := s'.threads[t]]
    && s'.arr.bits == s.arr.bits && s'.arr.dummy == s.arr.dummy
    && |s'.arr.slots| == |s.arr.slots| && |s'.arr.over| == |s.arr.over|
    && |s'.claim| == |s.claim| && |s'.count| == |s.count|
    && (forall g :: 0 <= g < |s.arr.over| ==> s.arr.over[g] <= s'.arr.over[g])
    && (forall g :: 0 <= g < |s.count| ==> s.count[g] <= s'.count[g])
    && (forall x :: 0 <= x < |s.arr.slots| && Held(s.threads[t]) != Exclusive(x / 15) ==>
         s'.arr.slots[x] == s.arr.slots[x] && s'.claim[x] == s.claim[x])
    && (forall x :: 0 <= x < |s.claim| && s'.claim[x].Some? && s'.claim[x] != s.claim[x] ==>
         var home := Home(s.arr.bits, s'.claim[x].value);
         s.count[home] < s'.count[home])
  }

  lemma LookupQuiet(s: State, t: nat, s': State)
    requires Shape(s) && t < |s.threads| && LookupStep(s, t, s')
    ensures Quiet(s, t, s') && s'.threads[t].op == s.threads[t].op
  {
    if s.threads[t].pc.Found? {
      FoundQuiet(s, t, s');
    }
  }

  lemma FoundQuiet(s: State, t: nat, s': State)
    requires Shape(s) && t < |s.threads| && LookupStep(s, t, s') && s.threads[t].pc.Found?
    ensures Quiet(s, t, s') && s'.threads[t].op == s.threads[t].op
  {
    assert PcShape(s.arr, s.threads[t]);
  }

  lemma EraseQuiet(s: State, t: nat, s': State)
    requires Shape(s) && t < |s.threads| && EraseStep(s, t, s')
    ensures Quiet(s, t, s') && s'.threads[t].op == s.threads[t].op
  {
  }

  lemma ReserveQuiet(s: State, t: nat, s': State)
    requires Shape(s) && t < |s.threads| && ReserveStep(s, t, s')
    ensures Quiet(s, t, s') && s'.threads[t].op == s.threads[t].op
  {
    if s.threads[t].pc.PickSlot? {
      PickQuiet(s, t, s');
    }
  }

  /** The slot that is picked when the group has one. */
  lemma Picked(s: State, t: nat, s': State) returns (x: nat)
    requires Shape(s) && t < |s.threads| && ReserveStep(s, t, s') && s.threads[t].pc.PickSlot?
    requires !GroupFull(s.arr, s.threads[t].pc.g)
    ensures FirstAvailable(s.arr, s.threads[t].pc.g, x) && Takes(s, t, x, s')
  {
    x :| FirstAvailable(s.arr, s.threads[t].pc.g, x) && Takes(s, t, x, s');
  }

  ghost predicate Takes(s: State, t: nat, x: nat, s': State)
    requires t < |s.threads| && s.threads[t].pc.PickSlot?
  {
    && x < |s.arr.slots|
    && s' == Become(SetSlot(s, x, Slot(ReducedHash(s.threads[t].op.Target().hash), None)), t,
                    Bump(s.threads[t].pc.i, x, s.threads[t].pc.c))
  }

  lemma TakesQuiet(s: State, t: nat, x: nat, s': State)
    requires Shape(s) && t < |s.threads| && s.threads[t].pc.PickSlot?
    requires Takes(s, t, x, s') && x / 15 == s.threads[t].pc.g
    ensures Quiet(s, t, s') && s'.threads[t].op == s.threads[t].op
  {
  }

  lemma PickQuiet(s: State, t: nat, s': State)
    requires Shape(s) && t < |s.threads| && ReserveStep(s, t, s') && s.threads[t].pc.PickSlot?
    ensures Quiet(s, t, s') && s'.threads[t].op == s.threads[t].op
  {
    if !GroupFull(s.arr, s.threads[t].pc.g) {
      var x := Picked(s, t, s');
      TakesQuiet(s, t, x, s');
    } else {
      MarkQuiet(s, t, s');
    }
  }

  lemma MarkQuiet(s: State, t: nat, s': State)
    requires Shape(s) && t < |s.threads| && s.threads[t].pc.PickSlot? && s.threads[t].pc.g < |s.arr.over|
    requires s' == Become(MarkGroup(s, s.threads[t].pc.g, s.threads[t].op.Target()), t,
                          Overflowed(s.threads[t].pc.i, s.threads[t].pc.g, s.threads[t].pc.c))
    ensures Quiet(s, t, s') && s'.threads[t].op == s.threads[t].op
  {
  }

  lemma CommitQuiet(s: State, t: nat, s': State)
    requires Shape(s) && t < |s.threads| && CommitStep(s, t, s')
    ensures Quiet(s, t, s') && s'.threads[t].op == s.threads[t].op
  {
  }

  // ----- locks -----

  /** The lock held after a step is the one held before, or was free to take. */
  ghost predicate LockGranted(s: State, t: nat, th: Thread)
    requires t < |s.threads|
  {
    Held(th).Free? || Held(th) == Held(s.threads[t]) || Grantable(s, t, Held(th))
  }

  lemma LookupLocks(s: State, t: nat, s': State)
    requires Shape(s) && t < |s.threads| && LookupStep(s, t, s')
    ensures |s'.threads| == |s.threads| && LockGranted(s, t, s'.threads[t])
  {
    if s.threads[t].pc.Found? {
      FoundLocks(s, t, s');
    } else if s.threads[t].pc.Scan? {
      ScanLocks(s, t, s');
    }
  }

  lemma FoundLocks(s: State, t: nat, s': State)
    requires Shape(s) && t < |s.threads| && LookupStep(s, t, s') && s.threads[t].pc.Found?
    ensures |s'.threads| == |s.threads| && Held(s'.threads[t]) == Held(s.threads[t])
  {
    assert PcShape(s.arr, s.threads[t]);
  }

  lemma ScanLocks(s: State, t: nat, s': State)
    requires Shape(s) && t < |s.threads| && LookupStep(s, t, s') && s.threads[t].pc.Scan?
    ensures |s'.threads| == |s.threads|
    ensures Held(s'.threads[t]).Free? || Held(s'.threads[t]) == Held(s.threads[t])
  {
    assert PcShape(s.arr, s.threads[t]);
  }

  lemma EraseLocks(s: State, t: nat, s': State)
    requires Shape(s) && t < |s.threads| && EraseStep(s, t, s')
    ensures |s'.threads| == |s.threads| && LockGranted(s, t, s'.threads[t])
  {
  }

  lemma ReserveLocks(s: State, t: nat, s': State)
    requires Shape(s) && t < |s.threads| && ReserveStep(s, t, s')
    ensures |s'.threads| == |s.threads| && LockGranted(s, t, s'.threads[t])
  {
    if s.threads[t].pc.PickSlot? {
      PickLocks(s, t, s');
    }
  }

  lemma PickLocks(s: State, t: nat, s': State)
    requires Shape(s) && t < |s.threads| && ReserveStep(s, t, s') && s.threads[t].pc.PickSlot?
    ensures |s'.threads| == |s.threads| && Held(s'.threads[t]) == Held(s.threads[t])
  {
    assert PcShape(s.arr, s.threads[t]);
  }

  lemma CommitLocks(s: State, t: nat, s': State)
    requires Shape(s) && t < |s.threads| && CommitStep(s, t, s')
    ensures |s'.threads| == |s.threads| && LockGranted(s, t, s'.threads[t])
  {
  }

  lemma LocksKept(s: State, t: nat, s': State)
    requires LocksOk(s) && t < |s.threads| == |s'.threads|
    requires s'.threads == s.threads[t := s'.threads[t]]
    requires LockGranted(s, t, s'.threads[t])
    ensures LocksOk(s')
  {
  }

  // ----- the other threads -----

  lemma OthersShape(s: State, t: nat, s': State, u: nat)
    requires Shape(s) && t < |s.threads| && Quiet(s, t, s') && u < |s.threads| && u != t
    ensures s'.arr.WellFormed() && s'.threads[u] == s.threads[u] && PcShape(s'.arr, s'.threads[u])
  {
    var th := s.threads[u];
    assert PcShape(s.arr, th);
    forall i: nat
      ensures PathAt(s'.arr, th.op.Target(), i) == PathAt(s.arr, th.op.Target(), i)
    {
    }
  }

  lemma OthersSlots(s: State, t: nat, s': State, u: nat)
    requires Inv(s) && t < |s.threads| && Quiet(s, t, s') && u < |s.threads| && u != t
    requires Shape(s')
    ensures WorkOk(s', s.threads[u]) && FoundOk(s', s.threads[u])
  {
    var th := s.threads[u];
    assert ThreadOk(s, th);
    assert Compatible(Held(s.threads[t]), Held(th));
    assert s'.threads[u] == th;
  }

  lemma OthersMarks(s: State, t: nat, s': State, u: nat)
    requires Inv(s) && t < |s.threads| && Quiet(s, t, s') && u < |s.threads| && u != t
    requires Shape(s')
    ensures MarkOk(s', s.threads[u])
  {
    var th := s.threads[u];
    assert ThreadOk(s, th);
    match th.pc
    case AcquireSlot(i, _, _) => MarkedMore(s.arr, s'.arr, th.op.Target(), i);
    case PickSlot(i, _, _) => MarkedMore(s.arr, s'.arr, th.op.Target(), i);
    case Overflowed(i, _, _) => MarkedMore(s.arr, s'.arr, th.op.Target(), i + 1);
    case Bump(i, _, _) => MarkedMore(s.arr, s'.arr, th.op.Target(), i);
    case _ =>
  }

  lemma AheadSame(a: Arrays, b: Arrays, th: Thread, x: nat)
    requires a.WellFormed() && b.WellFormed() && a.bits == b.bits && x < |a.slots|
    ensures Ahead(a, th, x) == Ahead(b, th, x)
  {
    assert Rank(a, th.op.Target(), x / 15) == Rank(b, th.op.Target(), x / 15);
  }

  lemma OthersFresh(s: State, t: nat, s': State, u: nat)
    requires Inv(s) && t < |s.threads| && Quiet(s, t, s') && u < |s.threads| && u != t
    requires Shape(s')
    ensures Fresh(s', s.threads[u])
  {
    var th := s.threads[u];
    assert ThreadOk(s, th);
    var home := Home(s.arr.bits, th.op.Target());
    if Recorded(th).Some? && Recorded(th).value == s'.count[home] {
      forall x | 0 <= x < |s'.claim| && s'.claim[x] == Some(th.op.Target())
        ensures Ahead(s'.arr, th, x)
      {
        assert s.claim[x] == s'.claim[x];
        AheadSame(s.arr, s'.arr, th, x);
      }
    }
  }

  // ----- the moving thread -----

  lemma PathSteps(a: Arrays, key: Key, i: nat)
    requires a.WellFormed()
    ensures PathAt(a, key, 0) == Home(a.bits, key)
    ensures PathAt(a, key, i + 1) == Masked(PathAt(a, key, i) + (i + 1), |a.over|)
  {
  }

  lemma WalkOn(a: Arrays, key: Key, i: nat, g: nat)
    requires a.WellFormed() && Walks(a, key, i, g)
    ensures Walks(a, key, i + 1, Masked(g + (i + 1), |a.over|))
  {
  }

  lemma ScanShape(s: State, t: nat, s': State)
    requires Shape(s) && t < |s.threads| && LookupStep(s, t, s') && s.threads[t].pc.Scan?
    ensures s'.arr.WellFormed() && PcShape(s'.arr, s'.threads[t])
  {
    assert PcShape(s.arr, s.threads[t]);
  }

  lemma MatchShape(s: State, t: nat, s': State)
    requires Shape(s) && t < |s.threads| && LookupStep(s, t, s') && s.threads[t].pc.Match?
    ensures s'.arr.WellFormed() && PcShape(s'.arr, s'.threads[t])
  {
    assert PcShape(s.arr, s.threads[t]);
  }

  lemma NextGroupShape(s: State, t: nat, s': State)
    requires Shape(s) && t < |s.threads| && LookupStep(s, t, s') && s.threads[t].pc.CheckOverflow?
    ensures s'.arr.WellFormed() && PcShape(s'.arr, s'.threads[t])
  {
    assert PcShape(s.arr, s.threads[t]);
    if s'.threads[t].pc.Match? {
      WalkOn(s.arr, s.threads[t].op.Target(), s.threads[t].pc.i, s.threads[t].pc.g);
    }
  }

  lemma LookupShape(s: State, t: nat, s': State)
    requires Shape(s) && t < |s.threads| && LookupStep(s, t, s')
    ensures s'.arr.WellFormed() && PcShape(s'.arr, s'.threads[t])
  {
    assert PcShape(s.arr, s.threads[t]);
    match s.threads[t].pc
    case CheckOverflow(_, _, _) => NextGroupShape(s, t, s');
    case Match(_, _, _, _, _) => MatchShape(s, t, s');
    case Scan(_, _, _, _) => ScanShape(s, t, s');
    case _ =>
  }

  lemma EraseShape(s: State, t: nat, s': State)
    requires Shape(s) && t < |s.threads| && EraseStep(s, t, s')
    ensures s'.arr.WellFormed() && PcShape(s'.arr, s'.threads[t])
  {
    assert PcShape(s.arr, s.threads[t]);
  }

  lemma PickShape(s: State, t: nat, s': State)
    requires Shape(s) && t < |s.threads| && ReserveStep(s, t, s') && s.threads[t].pc.PickSlot?
    ensures s'.arr.WellFormed() && PcShape(s'.arr, s'.threads[t])
  {
    assert PcShape(s.arr, s.threads[t]);
  }

  lemma OverflowedShape(s: State, t: nat, s': State)
    requires Shape(s) && t < |s.threads| && ReserveStep(s, t, s') && s.threads[t].pc.Overflowed?
    ensures s'.arr.WellFormed() && PcShape(s'.arr, s'.threads[t])
  {
    assert PcShape(s.arr, s.threads[t]);
    WalkOn(s.arr, s.threads[t].op.Target(), s.threads[t].pc.i, s.threads[t].pc.g);
  }

  lemma ReserveShape(s: State, t: nat, s': State)
    requires Shape(s) && t < |s.threads| && ReserveStep(s, t, s')
    ensures s'.arr.WellFormed() && PcShape(s'.arr, s'.threads[t])
  {
    if s.threads[t].pc.PickSlot? {
      PickShape(s, t, s');
    } else if s.threads[t].pc.Overflowed? {
      OverflowedShape(s, t, s');
    } else {
      assert PcShape(s.arr, s.threads[t]);
      PathSteps(s.arr, s.threads[t].op.Target(), 0);
    }
  }

  lemma CommitShape(s: State, t: nat, s': State)
    requires Shape(s) && t < |s.threads| && CommitStep(s, t, s')
    ensures s'.arr.WellFormed() && PcShape(s'.arr, s'.threads[t])
  {
    assert PcShape(s.arr, s.threads[t]);
  }

  /** Every slot that t was working on, or changed, is settled or still in its work. */
  ghost predicate OwnSlots(s: State, t: nat, s': State)
    requires Shape(s) && t < |s.threads| == |s'.threads|
    requires |s.arr.slots| == |s'.arr.slots| == |s'.claim|
  {
    forall x :: 0 <= x < |s.arr.slots| ==>
      || (s'.arr.slots[x] == s.arr.slots[x] && s'.claim[x] == s.claim[x] && Work(s.threads[t]) != Some(x))
      || SlotSettled(s', x)
      || Work(s'.threads[t]) == Some(x)
  }

  /** A slot in a group that t has locked is settled, unless t works on it itself. */
  lemma LockedSlotSettled(s: State, t: nat, x: nat)
    requires Inv(s) && t < |s.threads| && x < |s.arr.slots|
    requires !Held(s.threads[t]).Free? && Held(s.threads[t]).g == x / 15
    requires Work(s.threads[t]) != Some(x)
    ensures SlotSettled(s, x)
  {
    forall u | 0 <= u < |s.threads|
      ensures Work(s.threads[u]) != Some(x)
    {
      assert u != t ==> Compatible(Held(s.threads[t]), Held(s.threads[u]));
    }
    assert !InWork(s, x);
  }

  /** A step that changes one slot and its claim needs to account for that slot only. */
  lemma OneSlot(s: State, t: nat, s': State, x: nat)
    requires Shape(s) && t < |s.threads| == |s'.threads| && x < |s.arr.slots| == |s'.arr.slots| == |s'.claim|
    requires s'.arr.slots == s.arr.slots[x := s'.arr.slots[x]] && s'.claim == s.claim[x := s'.claim[x]]
    requires Work(s.threads[t]) in {None, Some(x)}
    requires SlotSettled(s', x) || Work(s'.threads[t]) == Some(x)
    ensures OwnSlots(s, t, s')
  {
  }

  lemma FoundSlots(s: State, t: nat, s': State)
    requires Inv(s) && t < |s.threads| && LookupStep(s, t, s') && s.threads[t].pc.Found?
    requires Quiet(s, t, s')
    ensures OwnSlots(s, t, s')
  {
    assert ThreadOk(s, s.threads[t]);
    LockedSlotSettled(s, t, s.threads[t].pc.x);
    FoundSettles(s, t, s');
    OneSlot(s, t, s', s.threads[t].pc.x);
  }

  lemma FoundSettles(s: State, t: nat, s': State)
    requires Shape(s) && t < |s.threads| && LookupStep(s, t, s') && s.threads[t].pc.Found? && Quiet(s, t, s')
    requires s.threads[t].pc.x < |s.arr.slots| && SlotSettled(s, s.threads[t].pc.x)
    requires KeyIn(s.arr.slots[s.threads[t].pc.x]) == Some(s.threads[t].op.Target())
    ensures var x := s.threads[t].pc.x;
      && s'.arr.slots == s.arr.slots[x := s'.arr.slots[x]] && s'.claim == s.claim[x := s'.claim[x]]
      && (SlotSettled(s', x) || Work(s'.threads[t]) == Some(x))
  {
  }

  lemma LookupSlots(s: State, t: nat, s': State)
    requires Inv(s) && t < |s.threads| && LookupStep(s, t, s')
    ensures Quiet(s, t, s') && OwnSlots(s, t, s')
  {
    LookupQuiet(s, t, s');
    if s.threads[t].pc.Found? {
      FoundSlots(s, t, s');
    } else {
      assert s'.arr == s.arr && s'.claim == s.claim;
    }
  }

  lemma EraseSlots(s: State, t: nat, s': State)
    requires Inv(s) && t < |s.threads| && EraseStep(s, t, s')
    ensures Quiet(s, t, s') && OwnSlots(s, t, s')
  {
    EraseQuiet(s, t, s');
    assert ThreadOk(s, s.threads[t]);
  }

  lemma TakesSlots(s: State, t: nat, x: nat, s': State)
    requires Shape(s) && t < |s.threads| && s.threads[t].pc.PickSlot? && Takes(s, t, x, s')
    ensures |s'.threads| == |s.threads| && |s'.arr.slots| == |s.arr.slots| == |s'.claim| && OwnSlots(s, t, s')
  {
    OneSlot(s, t, s', x);
  }

  lemma PickSlots(s: State, t: nat, s': State)
    requires Shape(s) && t < |s.threads| && ReserveStep(s, t, s') && s.threads[t].pc.PickSlot?
    requires Quiet(s, t, s')
    ensures OwnSlots(s, t, s')
  {
    if !GroupFull(s.arr, s.threads[t].pc.g) {
      var x := Picked(s, t, s');
      TakesSlots(s, t, x, s');
    } else {
      assert s'.arr.slots == s.arr.slots && s'.claim == s.claim;
    }
  }

  lemma ReserveSlots(s: State, t: nat, s': State)
    requires Shape(s) && t < |s.threads| && ReserveStep(s, t, s')
    ensures Quiet(s, t, s') && OwnSlots(s, t, s')
  {
    ReserveQuiet(s, t, s');
    if s.threads[t].pc.PickSlot? {
      PickSlots(s, t, s');
    } else {
      assert s'.arr == s.arr && s'.claim == s.claim;
    }
  }

  lemma InsertedSlots(s: State, t: nat, s': State)
    requires Inv(s) && t < |s.threads| && CommitStep(s, t, s') && s.threads[t].pc.Inserted?
    requires Quiet(s, t, s')
    ensures OwnSlots(s, t, s')
  {
    assert ThreadOk(s, s.threads[t]);
    LockedSlotSettled(s, t, s.threads[t].pc.x);
    OneSlot(s, t, s', s.threads[t].pc.x);
  }

  lemma ConstructSlots(s: State, t: nat, s': State)
    requires Inv(s) && t < |s.threads| && CommitStep(s, t, s') && s.threads[t].pc.Construct?
    requires Quiet(s, t, s')
    ensures OwnSlots(s, t, s')
  {
    assert ThreadOk(s, s.threads[t]);
    OneSlot(s, t, s', s.threads[t].pc.x);
  }

  lemma UndoSlots(s: State, t: nat, s': State)
    requires Inv(s) && t < |s.threads| && CommitStep(s, t, s') && s.threads[t].pc.Undo?
    requires Quiet(s, t, s')
    ensures OwnSlots(s, t, s')
  {
    assert ThreadOk(s, s.threads[t]);
    OneSlot(s, t, s', s.threads[t].pc.x);
  }

  lemma BumpClaim(s: State, t: nat, s': State)
    requires Shape(s) && t < |s.threads| && CommitStep(s, t, s') && s.threads[t].pc.Bump?
    ensures var x := s.threads[t].pc.x;
      && s'.arr == s.arr && x < |s.claim| == |s'.claim| && s'.claim == s.claim[x := s'.claim[x]]
      && t < |s'.threads| && Work(s'.threads[t]) == Some(x)
  {
    assert PcShape(s.arr, s.threads[t]);
  }

  lemma BumpSlots(s: State, t: nat, s': State)
    requires Inv(s) && t < |s.threads| && CommitStep(s, t, s') && s.threads[t].pc.Bump?
    requires Quiet(s, t, s')
    ensures OwnSlots(s, t, s')
  {
    var x := s.threads[t].pc.x;
    assert PcShape(s.arr, s.threads[t]);
    BumpClaim(s, t, s');
    OneSlot(s, t, s', x);
  }

  lemma CommitSlots(s: State, t: nat, s': State)
    requires Inv(s) && t < |s.threads| && CommitStep(s, t, s')
    ensures Quiet(s, t, s') && OwnSlots(s, t, s')
  {
    CommitQuiet(s, t, s');
    if s.threads[t].pc.Inserted? {
      InsertedSlots(s, t, s');
    } else if s.threads[t].pc.Construct? {
      ConstructSlots(s, t, s');
    } else if s.threads[t].pc.Undo? {
      UndoSlots(s, t, s');
    } else if s.threads[t].pc.Bump? {
      BumpSlots(s, t, s');
    } else {
      assert s'.arr == s.arr && s'.claim == s.claim;
    }
  }

  lemma SlotsKept(s: State, t: nat, s': State)
    requires Inv(s) && t < |s.threads| && Quiet(s, t, s') && Shape(s')
    requires OwnSlots(s, t, s')
    ensures SlotsOk(s')
  {
    forall x | 0 <= x < |s'.arr.slots|
      ensures SlotSettled(s', x) || InWork(s', x)
    {
      if Work(s'.threads[t]) == Some(x) {
        assert InWork(s', x);
      } else if !SlotSettled(s', x) {
        assert !SlotSettled(s, x);
        var u :| 0 <= u < |s.threads| && Work(s.threads[u]) == Some(x);
        assert u != t && s'.threads[u] == s.threads[u];
      }
    }
  }

  // ----- claims -----

  /** The only new claim a step can make is that of an inserter at the counter. */
  ghost predicate ClaimFrom(s: State, t: nat, s': State)
    requires Shape(s) && t < |s.threads| && |s'.claim| == |s.claim|
  {
    forall x :: 0 <= x < |s.claim| && s'.claim[x] != s.claim[x] && s'.claim[x].Some? ==>
      && s.threads[t].pc.Bump? && s.threads[t].pc.x == x
      && s'.claim[x] == Some(s.threads[t].op.Target())
      && Recorded(s.threads[t]).Some?
      && Recorded(s.threads[t]).value == s.count[Home(s.arr.bits, s.threads[t].op.Target())]
  }

  lemma LookupClaims(s: State, t: nat, s': State)
    requires Shape(s) && t < |s.threads| && LookupStep(s, t, s')
    ensures |s'.claim| == |s.claim| && ClaimFrom(s, t, s')
  {
  }

  lemma CommitClaims(s: State, t: nat, s': State)
    requires Shape(s) && t < |s.threads| && CommitStep(s, t, s')
    ensures |s'.claim| == |s.claim| && ClaimFrom(s, t, s')
  {
  }

  lemma StepClaims(s: State, t: nat, s': State)
    requires Shape(s) && t < |s.threads|
    requires LookupStep(s, t, s') || EraseStep(s, t, s') || ReserveStep(s, t, s') || CommitStep(s, t, s')
    ensures |s'.claim| == |s.claim| && ClaimFrom(s, t, s')
  {
    if LookupStep(s, t, s') {
      LookupClaims(s, t, s');
    } else if CommitStep(s, t, s') {
      CommitClaims(s, t, s');
    } else {
      ReserveKeepsClaims(s, t, s');
    }
  }

  lemma ReserveKeepsClaims(s: State, t: nat, s': State)
    requires Shape(s) && t < |s.threads| && (EraseStep(s, t, s') || ReserveStep(s, t, s'))
    ensures s'.claim == s.claim
  {
  }

  lemma MarkedReaches(a: Arrays, key: Key, i: nat, g: nat)
    requires a.WellFormed() && Walks(a, key, i, g) && Marked(a, key, i)
    ensures Reaches(a, key, g)
  {
    RankIsFirst(a, key, i);
  }

  lemma ClaimsKept(s: State, t: nat, s': State)
    requires Inv(s) && t < |s.threads| && Quiet(s, t, s') && Shape(s') && ClaimFrom(s, t, s')
    ensures ClaimsReachable(s')
  {
    forall x | 0 <= x < |s'.claim| && s'.claim[x].Some?
      ensures Reaches(s'.arr, s'.claim[x].value, x / 15)
    {
      var key := s'.claim[x].value;
      if s'.claim[x] != s.claim[x] {
        assert ThreadOk(s, s.threads[t]);
        MarkedReaches(s.arr, key, s.threads[t].pc.i, x / 15);
      }
      ReachesMore(s.arr, s'.arr, key, x / 15);
    }
  }

  /** The heart of the protocol: whoever wins the counter is the first to claim the
      key. */
  lemma UniqueKept(s: State, t: nat, s': State)
    requires Inv(s) && t < |s.threads| && Quiet(s, t, s') && ClaimFrom(s, t, s')
    ensures ClaimsUnique(s')
  {
    assert ThreadOk(s, s.threads[t]);
    if s.threads[t].pc.Bump? && Recorded(s.threads[t]).Some?
       && Recorded(s.threads[t]).value == s.count[Home(s.arr.bits, s.threads[t].op.Target())] {
      forall x | 0 <= x < |s.claim|
        ensures s.claim[x] != Some(s.threads[t].op.Target())
      {
        assert !Ahead(s.arr, s.threads[t], x);
      }
    }
  }

  // ----- lookups do not overlook -----

  lemma ClaimedMeta(s: State, x: nat)
    requires Inv(s) && x < |s.claim| && s.claim[x].Some?
    ensures s.arr.slots[x].meta == ReducedHash(s.claim[x].value.hash)
  {
    if !SlotSettled(s, x) {
      var u :| 0 <= u < |s.threads| && Work(s.threads[u]) == Some(x);
      assert ThreadOk(s, s.threads[u]);
    }
  }

  lemma AheadAtMatch(s: State, t: nat, s': State, x: nat)
    requires Inv(s) && t < |s.threads| && s.threads[t].pc.Match? && LookupStep(s, t, s')
    requires x < |s.claim| && s.claim[x] == Some(s.threads[t].op.Target())
    requires Ahead(s.arr, s.threads[t], x)
    ensures Ahead(s.arr, s'.threads[t], x)
  {
    ClaimedMeta(s, x);
    assert PcShape(s.arr, s.threads[t]);
  }

  /** In the group it has locked, the lookup sees what is claimed. */
  lemma LockedClaimShows(s: State, t: nat, x: nat)
    requires Inv(s) && t < |s.threads| && s.threads[t].pc.Scan? && x < |s.claim| && s.claim[x].Some?
    requires x / 15 == s.threads[t].pc.g
    ensures s.arr.slots[x].meta != AVAILABLE && KeyIn(s.arr.slots[x]) == s.claim[x]
  {
    LockedSlotSettled(s, t, x);
  }

  lemma AheadAtScan(s: State, t: nat, s': State, x: nat)
    requires Inv(s) && t < |s.threads| && s.threads[t].pc.Scan? && LookupStep(s, t, s')
    requires x < |s.claim| && s.claim[x] == Some(s.threads[t].op.Target())
    requires Ahead(s.arr, s.threads[t], x)
    ensures t < |s'.threads| && Ahead(s.arr, s'.threads[t], x)
  {
    if Rank(s.arr, s.threads[t].op.Target(), x / 15) == s.threads[t].pc.i {
      assert PcShape(s.arr, s.threads[t]);
      LockedClaimShows(s, t, x);
    }
    ScanKeepsAhead(s, t, s', x);
  }

  lemma ScanKeepsAhead(s: State, t: nat, s': State, x: nat)
    requires Shape(s) && t < |s.threads| && s.threads[t].pc.Scan? && LookupStep(s, t, s')
    requires x < |s.arr.slots| && Ahead(s.arr, s.threads[t], x)
    requires Rank(s.arr, s.threads[t].op.Target(), x / 15) == s.threads[t].pc.i ==>
      x / 15 == s.threads[t].pc.g
      && s.arr.slots[x].meta != AVAILABLE && KeyIn(s.arr.slots[x]) == Some(s.threads[t].op.Target())
    ensures t < |s'.threads| && Ahead(s.arr, s'.threads[t], x)
  {
  }

  lemma AheadAtOverflow(s: State, t: nat, s': State, x: nat)
    requires Inv(s) && t < |s.threads| && s.threads[t].pc.CheckOverflow? && LookupStep(s, t, s')
    requires x < |s.claim| && s.claim[x] == Some(s.threads[t].op.Target())
    requires Ahead(s.arr, s.threads[t], x)
    ensures Ahead(s.arr, s'.threads[t], x) && s'.threads[t].pc.Match?
  {
    var key, i := s.threads[t].op.Target(), s.threads[t].pc.i;
    assert PcShape(s.arr, s.threads[t]);
    assert Reaches(s.arr, key, x / 15);
    assert key.hash % 8 in s.arr.over[PathAt(s.arr, key, i)];
  }

  /** A lookup step never goes past a slot that is claimed for its key. */
  lemma AheadStep(s: State, t: nat, s': State, x: nat)
    requires Inv(s) && t < |s.threads| && LookupStep(s, t, s')
    requires x < |s.claim| && s.claim[x] == Some(s.threads[t].op.Target())
    requires Ahead(s.arr, s.threads[t], x)
    ensures Quiet(s, t, s') && s'.arr.WellFormed() && Ahead(s'.arr, s'.threads[t], x)
  {
    LookupQuiet(s, t, s');
    if s.threads[t].pc.Match? {
      AheadAtMatch(s, t, s', x);
    } else if s.threads[t].pc.Scan? {
      AheadAtScan(s, t, s', x);
    } else if s.threads[t].pc.CheckOverflow? {
      AheadAtOverflow(s, t, s', x);
    }
    AheadSame(s.arr, s'.arr, s'.threads[t], x);
  }

  lemma LookupRecords(s: State, t: nat, s': State)
    requires Shape(s) && t < |s.threads| && LookupStep(s, t, s') && t < |s'.threads|
    requires Recorded(s'.threads[t]).Some?
    ensures Recorded(s.threads[t]) == Recorded(s'.threads[t]) && s'.count == s.count && s'.claim == s.claim
  {
  }

  lemma LookupFresh(s: State, t: nat, s': State)
    requires Inv(s) && t < |s.threads| && LookupStep(s, t, s') && Shape(s')
    ensures Fresh(s', s'.threads[t])
  {
    LookupQuiet(s, t, s');
    var th, th' := s.threads[t], s'.threads[t];
    assert ThreadOk(s, th);
    if Recorded(th').Some? {
      LookupRecords(s, t, s');
      var now := s.count[Home(s.arr.bits, th.op.Target())];
      if Recorded(th').value == now {
        forall x | 0 <= x < |s'.claim| && s'.claim[x] == Some(th.op.Target())
          ensures Ahead(s'.arr, th', x)
        {
          AheadStep(s, t, s', x);
        }
      }
    }
  }

  lemma LookupThread(s: State, t: nat, s': State)
    requires Inv(s) && t < |s.threads| && LookupStep(s, t, s') && Shape(s')
    ensures ThreadOk(s', s'.threads[t])
  {
    LookupFresh(s, t, s');
    LookupFound(s, t, s');
    assert ThreadOk(s, s.threads[t]);
  }

  lemma LookupFound(s: State, t: nat, s': State)
    requires Inv(s) && t < |s.threads| && LookupStep(s, t, s') && Shape(s')
    ensures WorkOk(s', s'.threads[t]) && FoundOk(s', s'.threads[t]) && MarkOk(s', s'.threads[t])
  {
    LookupShape(s, t, s');
    if s.threads[t].pc.Found? {
      FoundWork(s, t, s');
    } else if s.threads[t].pc.Scan? {
      ScanFinds(s, t, s');
    } else {
      LookupGoesOn(s, t, s');
    }
  }

  lemma ScanFinds(s: State, t: nat, s': State)
    requires Shape(s) && t < |s.threads| && LookupStep(s, t, s') && Shape(s') && s.threads[t].pc.Scan?
    ensures PcShape(s'.arr, s'.threads[t])
    ensures WorkOk(s', s'.threads[t]) && FoundOk(s', s'.threads[t]) && MarkOk(s', s'.threads[t])
  {
    assert PcShape(s.arr, s.threads[t]);
    assert PcShape(s'.arr, s'.threads[t]);
  }

  /** Where a thread neither works on a slot nor has found one, nor looks for a slot. */
  predicate Wanders(pc: Pc) {
    pc.Outside? || pc.Match? || pc.Acquire? || pc.Scan? || pc.CheckOverflow? || pc.ReserveSize?
  }

  lemma LookupGoesOn(s: State, t: nat, s': State)
    requires Shape(s) && t < |s.threads| && LookupStep(s, t, s') && !s.threads[t].pc.Found? && !s.threads[t].pc.Scan?
    ensures t < |s'.threads| && Wanders(s'.threads[t].pc)
  {
  }

  lemma FoundWork(s: State, t: nat, s': State)
    requires Inv(s) && t < |s.threads| && LookupStep(s, t, s') && Shape(s') && s.threads[t].pc.Found?
    ensures PcShape(s'.arr, s'.threads[t]) && WorkOk(s', s'.threads[t])
  {
    assert ThreadOk(s, s.threads[t]);
    LockedSlotSettled(s, t, s.threads[t].pc.x);
  }

  lemma EraseThread(s: State, t: nat, s': State)
    requires Inv(s) && t < |s.threads| && EraseStep(s, t, s') && Shape(s')
    ensures ThreadOk(s', s'.threads[t])
  {
    assert ThreadOk(s, s.threads[t]);
  }

  lemma ReserveFresh(s: State, t: nat, s': State)
    requires Inv(s) && t < |s.threads| && ReserveStep(s, t, s') && Shape(s')
    ensures Fresh(s', s'.threads[t])
  {
    assert ThreadOk(s, s.threads[t]);
    assert s'.claim == s.claim && s'.count == s.count;
    assert s.arr.bits == s'.arr.bits;
  }

  lemma MarkedGroup(s: State, t: nat, s': State)
    requires Inv(s) && t < |s.threads| && ReserveStep(s, t, s') && Shape(s')
    requires s'.threads[t].pc.Overflowed?
    ensures MarkOk(s', s'.threads[t])
  {
    ReserveQuiet(s, t, s');
    assert ThreadOk(s, s.threads[t]);
    assert PcShape(s.arr, s.threads[t]);
    var key, i, g := s.threads[t].op.Target(), s.threads[t].pc.i, s.threads[t].pc.g;
    MarkedMore(s.arr, s'.arr, key, i);
    assert PathAt(s'.arr, key, i) == g;
  }

  lemma ReserveMarks(s: State, t: nat, s': State)
    requires Inv(s) && t < |s.threads| && ReserveStep(s, t, s') && Shape(s')
    ensures MarkOk(s', s'.threads[t])
  {
    assert ThreadOk(s, s.threads[t]);
    ReserveQuiet(s, t, s');
    match s'.threads[t].pc
    case Overflowed(_, _, _) => MarkedGroup(s, t, s');
    case Bump(i, _, _) => MarkedMore(s.arr, s'.arr, s.threads[t].op.Target(), i);
    case _ =>
  }

  lemma ReserveThread(s: State, t: nat, s': State)
    requires Inv(s) && t < |s.threads| && ReserveStep(s, t, s') && Shape(s')
    ensures ThreadOk(s', s'.threads[t])
  {
    ReserveFresh(s, t, s');
    ReserveMarks(s, t, s');
    if s'.threads[t].pc.Bump? {
      LockedSlotSettled(s, t, s'.threads[t].pc.x);
    }
  }

  lemma BumpThread(s: State, t: nat, s': State)
    requires Inv(s) && t < |s.threads| && CommitStep(s, t, s') && Shape(s') && s.threads[t].pc.Bump?
    ensures ThreadOk(s', s'.threads[t])
  {
    assert ThreadOk(s, s.threads[t]);
  }

  lemma UndoThread(s: State, t: nat, s': State)
    requires Inv(s) && t < |s.threads| && CommitStep(s, t, s') && Shape(s')
    requires s.threads[t].pc.Undo? || s.threads[t].pc.UndoRelease? || s.threads[t].pc.UndoSize?
    ensures ThreadOk(s', s'.threads[t])
  {
  }

  lemma ConstructThread(s: State, t: nat, s': State)
    requires Inv(s) && t < |s.threads| && CommitStep(s, t, s') && Shape(s')
    requires s.threads[t].pc.Construct? || s.threads[t].pc.Inserted?
    ensures ThreadOk(s', s'.threads[t])
  {
  }

  lemma CommitThread(s: State, t: nat, s': State)
    requires Inv(s) && t < |s.threads| && CommitStep(s, t, s') && Shape(s')
    ensures ThreadOk(s', s'.threads[t])
  {
    match s.threads[t].pc
    case Bump(_, _, _) => BumpThread(s, t, s');
    case Construct(_) => ConstructThread(s, t, s');
    case Inserted(_) => ConstructThread(s, t, s');
    case _ => UndoThread(s, t, s');
  }

  // ----- putting a step together -----

  lemma Assemble(s: State, t: nat, s': State)
    requires Inv(s) && t < |s.threads| && Quiet(s, t, s') && ClaimFrom(s, t, s')
    requires s'.arr.WellFormed() && PcShape(s'.arr, s'.threads[t])
    requires LockGranted(s, t, s'.threads[t]) && OwnSlots(s, t, s')
    requires Shape(s') ==> ThreadOk(s', s'.threads[t])
    ensures Inv(s')
  {
    forall u | 0 <= u < |s.threads| && u != t
      ensures PcShape(s'.arr, s'.threads[u])
    {
      OthersShape(s, t, s', u);
    }
    assert Shape(s');
    LocksKept(s, t, s');
    SlotsKept(s, t, s');
    ClaimsKept(s, t, s');
    UniqueKept(s, t, s');
    forall u | 0 <= u < |s.threads|
      ensures ThreadOk(s', s'.threads[u])
    {
      if u != t {
        OthersSlots(s, t, s', u);
        OthersMarks(s, t, s', u);
        OthersFresh(s, t, s', u);
        assert s'.threads[u] == s.threads[u];
      }
    }
  }

  lemma LookupKeeps(s: State, t: nat, s': State)
    requires Inv(s) && t < |s.threads| && LookupStep(s, t, s')
    ensures Inv(s')
  {
    LookupShape(s, t, s');
    LookupSlots(s, t, s');
    LookupLocks(s, t, s');
    StepClaims(s, t, s');
    if Shape(s') {
      LookupThread(s, t, s');
    }
    Assemble(s, t, s');
  }

  lemma EraseKeeps(s: State, t: nat, s': State)
    requires Inv(s) && t < |s.threads| && EraseStep(s, t, s')
    ensures Inv(s')
  {
    EraseShape(s, t, s');
    EraseSlots(s, t, s');
    EraseLocks(s, t, s');
    StepClaims(s, t, s');
    if Shape(s') {
      EraseThread(s, t, s');
    }
    Assemble(s, t, s');
  }

  lemma ReserveKeeps(s: State, t: nat, s': State)
    requires Inv(s) && t < |s.threads| && ReserveStep(s, t, s')
    ensures Inv(s')
  {
    ReserveShape(s, t, s');
    ReserveSlots(s, t, s');
    ReserveLocks(s, t, s');
    StepClaims(s, t, s');
    if Shape(s') {
      ReserveThread(s, t, s');
    }
    Assemble(s, t, s');
  }

  lemma CommitKeeps(s: State, t: nat, s': State)
    requires Inv(s) && t < |s.threads| && CommitStep(s, t, s')
    ensures Inv(s')
  {
    CommitShape(s, t, s');
    CommitSlots(s, t, s');
    CommitLocks(s, t, s');
    StepClaims(s, t, s');
    if Shape(s') {
      CommitThread(s, t, s');
    }
    Assemble(s, t, s');
  }

  /** A valid table that no thread is inside of. */
  ghost predicate AtRest(s: State) {
    && Valid(s.arr)
    && |s.count| == |s.arr.over|
    && |s.claim| == |s.arr.slots|
    && (forall x :: 0 <= x < |s.claim| ==> s.claim[x] == KeyIn(s.arr.slots[x]))
    && (forall t :: 0 <= t < |s.threads| ==>
         var th := s.threads[t];
         th.pc.Outside? || (th.op.Insert? && (th.pc.Full? || th.pc.Reenter?)))
  }

  lemma RestingClaims(s: State)
    requires AtRest(s)
    ensures Shape(s) && ClaimsReachable(s) && ClaimsUnique(s)
  {
    assert Shape(s);
    forall x, y | 0 <= x < y < |s.claim| && s.claim[x].Some?
      ensures s.claim[x] != s.claim[y]
    {
    }
  }

  lemma AtRestInv(s: State)
    requires AtRest(s)
    ensures Inv(s)
  {
    RestingClaims(s);
    forall t | 0 <= t < |s.threads|
      ensures ThreadOk(s, s.threads[t]) && Held(s.threads[t]).Free?
    {
    }
    forall x | 0 <= x < |s.arr.slots|
      ensures SlotSettled(s, x)
    {
    }
  }

  lemma WipedValid(a: Arrays, b: Arrays)
    requires a.WellFormed() && !a.dummy && Wiped(a, b)
    ensures Valid(b)
  {
  }

  lemma ExclusiveKeeps(s: State, t: nat, s': State)
    requires Inv(s) && t < |s.threads| && ExclusiveStep(s, t, s')
    ensures Inv(s')
  {
    if s.threads[t].pc.Full? {
      if s.size == s.ml {
        RehashAtRest(s, t, s');
        AtRestInv(s');
      } else {
        BeginKeeps(s, t, s');
      }
    } else if s.threads[t].pc.Outside? && s'.threads == s.threads {
      if s' != s {
        ClearAtRest(s, t, s');
        AtRestInv(s');
      }
    } else {
      BeginKeeps(s, t, s');
    }
  }

  lemma RehashAtRest(s: State, t: nat, s': State)
    requires Inv(s) && t < |s.threads| && ExclusiveStep(s, t, s') && s.threads[t].pc.Full? && s.size == s.ml
    ensures AtRest(s')
  {
    assert PcShape(s.arr, s.threads[t]);
    forall u | 0 <= u < |s'.threads| && (s'.threads[u].pc.Full? || s'.threads[u].pc.Reenter?)
      ensures s'.threads[u].op.Insert?
    {
      assert PcShape(s.arr, s.threads[u]);
    }
  }

  lemma ClearAtRest(s: State, t: nat, s': State)
    requires Inv(s) && t < |s.threads| && ExclusiveStep(s, t, s') && s.threads[t].pc.Outside?
    requires s'.threads == s.threads && s' != s
    ensures AtRest(s')
  {
    WipedValid(s.arr, s'.arr);
    forall u | 0 <= u < |s'.threads| && (s'.threads[u].pc.Full? || s'.threads[u].pc.Reenter?)
      ensures s'.threads[u].op.Insert?
    {
      assert PcShape(s.arr, s.threads[u]);
    }
  }

  lemma BeginKeeps(s: State, t: nat, s': State)
    requires Inv(s) && t < |s.threads| && ExclusiveStep(s, t, s')
    requires s.threads[t].pc.Full? ==> s.size != s.ml
    requires s.threads[t].pc.Outside? ==> s'.threads != s.threads
    ensures Inv(s')
  {
    assert PcShape(s.arr, s.threads[t]);
    PathSteps(s.arr, s'.threads[t].op.Target(), 0);
    assert s'.arr == s.arr && s'.claim == s.claim && s'.count == s.count;
    assert s'.threads == s.threads[t := s'.threads[t]];
    Assemble(s, t, s');
  }

  /** Every step of every thread keeps the invariant. */
  lemma StepKeeps(s: State, t: nat, s': State)
    requires Inv(s) && t < |s.threads| && Step(s, t, s')
    ensures Inv(s')
  {
    if LookupStep(s, t, s') {
      LookupKeeps(s, t, s');
    } else if EraseStep(s, t, s') {
      EraseKeeps(s, t, s');
    } else if ReserveStep(s, t, s') {
      ReserveKeeps(s, t, s');
    } else if CommitStep(s, t, s') {
      CommitKeeps(s, t, s');
    } else {
      ExclusiveKeeps(s, t, s');
    }
  }
}
