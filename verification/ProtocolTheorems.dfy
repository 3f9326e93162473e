/** Properties of every run of the optimistic insertion protocol. */
module ProtocolTheorems {
  import opened Counting
  import opened Probing
  import opened Tables
  import opened TableModel
  import opened Protocol
  import opened ProtocolInvariant
  import opened ProtocolAccounts

  /** Any valid table, with counters that match it, and no thread inside. */
  ghost predicate Initial(s: State) {
    && AtRest(s)
    && (forall t :: 0 <= t < |s.threads| ==> s.threads[t].pc.Outside?)
    && s.size == Sum(s.arr.slots, Holds) <= s.ml <= s.arr.Capacity()
    && s.table == ModelOf(s.arr.slots)
  }

  ghost predicate Next(s: State, s': State) {
    Shape(s) && exists t :: 0 <= t < |s.threads| && Step(s, t, s')
  }

  ghost predicate IsRun(run: seq<State>) {
    && |run| > 0 && Initial(run[0])
    && forall i :: 0 <= i < |run| - 1 ==> StepAt(run, i)
  }

  ghost predicate StepAt(run: seq<State>, i: nat)
    requires i + 1 < |run|
  {
    Next(run[i], run[i + 1])
  }

  lemma {:induction false} RunKeeps(run: seq<State>, i: nat)
    requires IsRun(run) && i < |run|
    ensures Inv(run[i]) && Accounts(run[i]) && |run[i].threads| == |run[0].threads|
  {
    if i == 0 {
      AtRestInv(run[0]);
      AtRestAccounts(run[0]);
    } else {
      RunKeeps(run, i - 1);
      assert StepAt(run, i - 1);
      NextKeeps(run[i - 1], run[i]);
    }
  }

  lemma NextKeeps(s: State, s': State)
    requires Inv(s) && Accounts(s) && Next(s, s')
    ensures Inv(s') && Accounts(s') && |s'.threads| == |s.threads|
  {
    var t :| 0 <= t < |s.threads| && Step(s, t, s');
    StepKeeps(s, t, s');
    AccountsKept(s, t, s');
    SameThreads(s, t, s');
  }

  lemma RunNext(run: seq<State>, j: nat)
    requires IsRun(run) && 0 < j < |run|
    ensures Next(run[j - 1], run[j])
  {
    assert StepAt(run, j - 1);
  }

  lemma RunStep(run: seq<State>, j: nat)
    requires IsRun(run) && 0 < j < |run|
    ensures Inv(run[j - 1]) && Inv(run[j]) && Next(run[j - 1], run[j])
  {
    RunNext(run, j);
    RunInv(run, j - 1);
    RunInv(run, j);
  }

  lemma RunInv(run: seq<State>, i: nat)
    requires IsRun(run) && i < |run|
    ensures Inv(run[i])
  {
    RunKeeps(run, i);
  }

  lemma SameThreads(s: State, t: nat, s': State)
    requires Shape(s) && t < |s.threads| && Step(s, t, s')
    ensures |s'.threads| == |s.threads| && s'.threads == s.threads[t := s'.threads[t]]
  {
    if InnerStep(s, t, s') {
      InnerQuiet(s, t, s');
    }
  }

  // ----- no two equal keys -----

  lemma ElementIsClaimed(s: State, x: nat)
    requires Inv(s) && x < |s.arr.slots| && s.arr.slots[x].elem.Some?
    ensures s.claim[x] == KeyIn(s.arr.slots[x])
  {
    forall u | 0 <= u < |s.threads| && Work(s.threads[u]).Some?
      ensures Work(s.threads[u]) != Some(x)
    {
      assert ThreadOk(s, s.threads[u]);
    }
    assert !InWork(s, x);
  }

  /** In no interleaving do two constructed elements have equal keys. */
  lemma NoDuplicateKeys(run: seq<State>, i: nat, x: nat, y: nat)
    requires IsRun(run) && i < |run|
    requires x < |run[i].arr.slots| && y < |run[i].arr.slots| && x != y
    requires run[i].arr.slots[x].elem.Some? && run[i].arr.slots[y].elem.Some?
    ensures run[i].arr.slots[x].elem.value.key != run[i].arr.slots[y].elem.value.key
  {
    RunKeeps(run, i);
    ElementIsClaimed(run[i], x);
    ElementIsClaimed(run[i], y);
  }

  // ----- what a lock holder sees -----

  /** Whoever can see group g under a lock, sees a settled group: each occupied slot,
      the sentinel apart, holds a constructed element, and no reservation shows. */
  lemma UnlockedGroupSettled(run: seq<State>, i: nat, x: nat)
    requires IsRun(run) && i < |run| && x < |run[i].arr.slots|
    requires forall t :: 0 <= t < |run[i].threads| ==> Held(run[i].threads[t]) != Exclusive(x / 15)
    ensures Shape(run[i]) && SlotSettled(run[i], x)
    ensures run[i].arr.slots[x].meta !in {AVAILABLE, SENTINEL} <==> run[i].arr.slots[x].elem.Some?
  {
    RunKeeps(run, i);
    assert !InWork(run[i], x);
  }

  /** The holder of a group's lock, shared or exclusive, sees each slot of the group
      settled, but for the one it is changing itself. */
  lemma LockHolderSeesSettled(run: seq<State>, i: nat, t: nat, x: nat)
    requires IsRun(run) && i < |run| && t < |run[i].threads| && x < |run[i].arr.slots|
    requires !Held(run[i].threads[t]).Free? && Held(run[i].threads[t]).g == x / 15
    requires Work(run[i].threads[t]) != Some(x)
    ensures Shape(run[i]) && SlotSettled(run[i], x)
    ensures run[i].arr.slots[x].meta !in {AVAILABLE, SENTINEL} <==> run[i].arr.slots[x].elem.Some?
  {
    RunInv(run, i);
    LockedSlotSettled(run[i], t, x);
  }

  /** The slots a lookup has matched do not include the sentinel's. */
  ghost predicate MaskClear(a: Arrays, th: Thread) {
    match th.pc
    case Match(_, g, _, mask, _) => forall n :: n in mask ==> !a.SentinelAt(15 * g + n)
    case Acquire(_, g, mask, _) => forall n :: n in mask ==> !a.SentinelAt(15 * g + n)
    case Scan(_, g, mask, _) => forall n :: n in mask ==> !a.SentinelAt(15 * g + n)
    case _ => true
  }

  lemma SentinelByte(s: State, x: nat)
    requires Inv(s) && x < |s.arr.slots| && s.arr.SentinelAt(x)
    ensures s.arr.slots[x].meta == SENTINEL
  {
    forall u | 0 <= u < |s.threads| && Work(s.threads[u]).Some?
      ensures Work(s.threads[u]) != Some(x)
    {
      assert ThreadOk(s, s.threads[u]);
    }
    assert !InWork(s, x);
  }

  lemma MatchMaskClear(s: State, t: nat, s': State)
    requires Inv(s) && t < |s.threads| && LookupStep(s, t, s') && MaskClear(s.arr, s.threads[t])
    requires s.threads[t].pc.Match?
    ensures t < |s'.threads| && MaskClear(s.arr, s'.threads[t])
  {
    assert PcShape(s.arr, s.threads[t]);
    var x := 15 * s.threads[t].pc.g + s.threads[t].pc.j;
    if s.threads[t].pc.j < 15 && s.arr.SentinelAt(x) {
      SentinelByte(s, x);
    }
    MatchAdds(s, t, s');
  }

  lemma MatchAdds(s: State, t: nat, s': State)
    requires Shape(s) && t < |s.threads| && LookupStep(s, t, s') && MaskClear(s.arr, s.threads[t])
    requires s.threads[t].pc.Match? && 15 * s.threads[t].pc.g + 15 <= |s.arr.slots|
    requires var x := 15 * s.threads[t].pc.g + s.threads[t].pc.j;
      s.threads[t].pc.j < 15 && s.arr.SentinelAt(x) ==> s.arr.slots[x].meta == SENTINEL
    ensures t < |s'.threads| && MaskClear(s.arr, s'.threads[t])
  {
  }

  lemma LookupMaskClear(s: State, t: nat, s': State)
    requires Inv(s) && t < |s.threads| && LookupStep(s, t, s') && MaskClear(s.arr, s.threads[t])
    ensures t < |s'.threads| && MaskClear(s.arr, s'.threads[t])
  {
    if s.threads[t].pc.Match? {
      MatchMaskClear(s, t, s');
    }
  }

  lemma InnerMaskClear(s: State, u: nat, s': State, t: nat)
    requires Inv(s) && u < |s.threads| && InnerStep(s, u, s')
    requires t < |s.threads| && MaskClear(s.arr, s.threads[t])
    ensures t < |s'.threads| && MaskClear(s'.arr, s'.threads[t])
  {
    InnerQuiet(s, u, s');
    if u == t {
      if LookupStep(s, u, s') {
        LookupMaskClear(s, t, s');
      } else {
        NoMask(s, t, s');
      }
    }
  }

  lemma NoMask(s: State, t: nat, s': State)
    requires Shape(s) && t < |s.threads| && (EraseStep(s, t, s') || ReserveStep(s, t, s') || CommitStep(s, t, s'))
    ensures t < |s'.threads| && MaskClear(s'.arr, s'.threads[t])
  {
    if EraseStep(s, t, s') {
      EraseNoMask(s, t, s');
    } else if ReserveStep(s, t, s') {
      ReserveNoMask(s, t, s');
    } else {
      CommitNoMask(s, t, s');
    }
  }

  lemma EraseNoMask(s: State, t: nat, s': State)
    requires Shape(s) && t < |s.threads| && EraseStep(s, t, s')
    ensures t < |s'.threads| && MaskClear(s'.arr, s'.threads[t])
  {
  }

  lemma ReserveNoMask(s: State, t: nat, s': State)
    requires Shape(s) && t < |s.threads| && ReserveStep(s, t, s')
    ensures t < |s'.threads| && MaskClear(s'.arr, s'.threads[t])
  {
  }

  lemma CommitNoMask(s: State, t: nat, s': State)
    requires Shape(s) && t < |s.threads| && CommitStep(s, t, s')
    ensures t < |s'.threads| && MaskClear(s'.arr, s'.threads[t])
  {
  }

  lemma ExclusiveMaskClear(s: State, u: nat, s': State, t: nat)
    requires Shape(s) && u < |s.threads| && ExclusiveStep(s, u, s')
    requires t < |s.threads| && MaskClear(s.arr, s.threads[t])
    ensures t < |s'.threads| && MaskClear(s'.arr, s'.threads[t])
  {
  }

  lemma NextMaskClear(s: State, s': State, t: nat)
    requires Inv(s) && Next(s, s') && t < |s.threads| && MaskClear(s.arr, s.threads[t])
    ensures t < |s'.threads| && MaskClear(s'.arr, s'.threads[t])
  {
    var u :| 0 <= u < |s.threads| && Step(s, u, s');
    if InnerStep(s, u, s') {
      InnerMaskClear(s, u, s', t);
    } else {
      ExclusiveMaskClear(s, u, s', t);
    }
  }

  lemma RunMaskClear(run: seq<State>, i: nat, t: nat)
    requires IsRun(run) && 0 < i < |run| && t < |run[i - 1].threads|
    requires MaskClear(run[i - 1].arr, run[i - 1].threads[t])
    ensures t < |run[i].threads| && MaskClear(run[i].arr, run[i].threads[t])
  {
    RunInv(run, i - 1);
    RunNext(run, i);
    NextMaskClear(run[i - 1], run[i], t);
  }

  lemma {:induction false} MasksClear(run: seq<State>, i: nat, t: nat)
    requires IsRun(run) && i < |run| && t < |run[0].threads|
    ensures t < |run[i].threads| && MaskClear(run[i].arr, run[i].threads[t])
  {
    if i > 0 {
      MasksClear(run, i - 1, t);
      RunMaskClear(run, i, t);
    } else {
      assert run[0].threads[t].pc.Outside?;
    }
  }

  lemma ScanSees(s: State, t: nat, n: nat)
    requires Inv(s) && t < |s.threads| && s.threads[t].pc.Scan? && n in s.threads[t].pc.mask
    ensures 15 * s.threads[t].pc.g + n < |s.arr.slots| && SlotSettled(s, 15 * s.threads[t].pc.g + n)
  {
    assert PcShape(s.arr, s.threads[t]);
    LockedSlotSettled(s, t, 15 * s.threads[t].pc.g + n);
  }

  /** Whatever a lookup compares its key with under the group's lock, in shared or in
      exclusive mode, is a constructed element under its reduced hash. */
  lemma ScanComparesConstructed(run: seq<State>, i: nat, t: nat, n: nat)
    requires IsRun(run) && i < |run| && t < |run[i].threads|
    requires run[i].threads[t].pc.Scan? && n in run[i].threads[t].pc.mask
    ensures var x := 15 * run[i].threads[t].pc.g + n;
      && x < |run[i].arr.slots|
      && var slot := run[i].arr.slots[x];
         slot.meta != AVAILABLE ==> slot.elem.Some? && slot.meta == ReducedHash(slot.elem.value.key.hash)
  {
    RunKeeps(run, i);
    MasksClear(run, i, t);
    ScanComparesAt(run[i], t, n);
  }

  lemma ScanComparesAt(s: State, t: nat, n: nat)
    requires Inv(s) && t < |s.threads| && MaskClear(s.arr, s.threads[t])
    requires s.threads[t].pc.Scan? && n in s.threads[t].pc.mask
    ensures var x := 15 * s.threads[t].pc.g + n;
      && x < |s.arr.slots|
      && var slot := s.arr.slots[x];
         slot.meta != AVAILABLE ==> slot.elem.Some? && slot.meta == ReducedHash(slot.elem.value.key.hash)
  {
    ScanSees(s, t, n);
    SettledShows(s, 15 * s.threads[t].pc.g + n);
  }

  lemma SettledShows(s: State, x: nat)
    requires x < |s.arr.slots| == |s.claim| && SlotSettled(s, x) && !s.arr.SentinelAt(x)
    ensures var slot := s.arr.slots[x];
      slot.meta != AVAILABLE ==> slot.elem.Some? && slot.meta == ReducedHash(slot.elem.value.key.hash)
  {
  }

  /** A thread that has found its key holds the lock of the group, and the element is
      there with that key; one that has inserted sees its own element. */
  lemma FoundIsStored(run: seq<State>, i: nat, t: nat)
    requires IsRun(run) && i < |run| && t < |run[i].threads|
    requires run[i].threads[t].pc.Found? || run[i].threads[t].pc.Inserted?
    ensures var x := run[i].threads[t].pc.x;
      && x < |run[i].arr.slots|
      && run[i].arr.slots[x].elem.Some?
      && run[i].arr.slots[x].elem.value.key == run[i].threads[t].op.Target()
      && !Held(run[i].threads[t]).Free? && Held(run[i].threads[t]).g == x / 15
  {
    RunKeeps(run, i);
    FoundHere(run[i], t);
  }

  lemma FoundHere(s: State, t: nat)
    requires Inv(s) && t < |s.threads| && (s.threads[t].pc.Found? || s.threads[t].pc.Inserted?)
    ensures var x := s.threads[t].pc.x;
      && x < |s.arr.slots|
      && KeyIn(s.arr.slots[x]) == Some(s.threads[t].op.Target())
      && !Held(s.threads[t]).Free? && Held(s.threads[t]).g == x / 15
  {
    assert ThreadOk(s, s.threads[t]);
  }

  // ----- the set of keys -----

  /** The keys in the table: those won at an insertion counter and not yet erased. */
  ghost function Keys(s: State): set<Key> {
    set x | 0 <= x < |s.claim| && s.claim[x].Some? :: s.claim[x].value
  }

  lemma KeysChange(s: State, t: nat, s': State, x: nat)
    requires Inv(s) && t < |s.threads| && x < |s.claim| == |s'.claim|
    requires s'.claim == s.claim[x := s'.claim[x]]
    ensures s.claim[x] == None && s'.claim[x].Some? ==> Keys(s') == Keys(s) + {s'.claim[x].value}
    ensures s.claim[x].Some? && s'.claim[x] == None ==> Keys(s') == Keys(s) - {s.claim[x].value}
  {
    if s.claim[x] == None && s'.claim[x].Some? {
      forall k | k in Keys(s) + {s'.claim[x].value}
        ensures k in Keys(s')
      {
        if k in Keys(s) {
          var y :| 0 <= y < |s.claim| && s.claim[y] == Some(k);
          assert s'.claim[y] == Some(k);
        } else {
          assert s'.claim[x] == Some(k);
        }
      }
    } else if s.claim[x].Some? && s'.claim[x] == None {
      forall k | k in Keys(s) - {s.claim[x].value}
        ensures k in Keys(s')
      {
        var y :| 0 <= y < |s.claim| && s.claim[y] == Some(k);
        assert s'.claim[y] == Some(k);
      }
    }
  }

  /** The step at which an insertion takes effect. */
  predicate Commits(s: State, t: nat)
    requires t < |s.threads| && s.arr.bits <= 64 && |s.count| >= Pow2(s.arr.bits)
  {
    var th := s.threads[t];
    th.pc.Bump? && s.count[Home(s.arr.bits, th.op.Target())] == th.pc.c
  }

  /** Inside the container the set of keys changes at two kinds of step only: an
      insertion whose counter has not moved adds a key that was absent, and an erasure
      under its lock removes a key that was present. */
  lemma InnerStepOnKeys(s: State, t: nat, s': State)
    requires Inv(s) && t < |s.threads| && InnerStep(s, t, s')
    ensures var key := s.threads[t].op.Target();
      if Commits(s, t) then key !in Keys(s) && Keys(s') == Keys(s) + {key}
      else if s.threads[t].pc.Found? && s.threads[t].op.Erase? then
        key in Keys(s) && Keys(s') == Keys(s) - {key}
      else Keys(s') == Keys(s)
  {
    match s.threads[t].pc
    case Bump(_, _, _) => BumpOnKeys(s, t, s');
    case Found(_) => FoundOnKeys(s, t, s');
    case _ => OthersKeepClaims(s, t, s');
  }

  lemma BumpOnKeys(s: State, t: nat, s': State)
    requires Inv(s) && t < |s.threads| && CommitStep(s, t, s') && s.threads[t].pc.Bump?
    ensures var key := s.threads[t].op.Target();
      if Commits(s, t) then key !in Keys(s) && Keys(s') == Keys(s) + {key} else Keys(s') == Keys(s)
  {
    assert ThreadOk(s, s.threads[t]);
    if Commits(s, t) {
      CommitIsFirst(s, t);
      KeysChange(s, t, s', s.threads[t].pc.x);
    }
  }

  lemma FoundOnKeys(s: State, t: nat, s': State)
    requires Inv(s) && t < |s.threads| && LookupStep(s, t, s') && s.threads[t].pc.Found?
    ensures var key := s.threads[t].op.Target();
      key in Keys(s) && Keys(s') == if s.threads[t].op.Erase? then Keys(s) - {key} else Keys(s)
  {
    var x := s.threads[t].pc.x;
    FoundHere(s, t);
    LockedSlotSettled(s, t, x);
    assert s.claim[x] == Some(s.threads[t].op.Target());
    if s.threads[t].op.Erase? {
      KeysChange(s, t, s', x);
    }
  }

  lemma CommitIsFirst(s: State, t: nat)
    requires Inv(s) && t < |s.threads| && Commits(s, t)
    ensures s.threads[t].op.Target() !in Keys(s)
  {
    assert ThreadOk(s, s.threads[t]);
    assert forall x :: 0 <= x < |s.claim| ==> !Ahead(s.arr, s.threads[t], x);
  }

  lemma RestingKeys(s: State)
    requires AtRest(s)
    ensures forall k :: k in Keys(s) <==> exists e :: Stores(s.arr, e) && e.key == k
  {
    forall k | k in Keys(s)
      ensures exists e :: Stores(s.arr, e) && e.key == k
    {
      var x :| 0 <= x < |s.claim| && s.claim[x] == Some(k);
      assert Stores(s.arr, s.arr.slots[x].elem.value);
    }
    forall k, e | Stores(s.arr, e) && e.key == k
      ensures k in Keys(s)
    {
      var x :| 0 <= x < |s.arr.slots| && s.arr.slots[x].elem == Some(e);
      assert s.claim[x] == Some(k);
    }
  }

  /** Under exclusive access a rehash keeps the set of keys, and only a clear empties
      it. */
  lemma ExclusiveStepOnKeys(s: State, t: nat, s': State)
    requires Inv(s) && Accounts(s) && t < |s.threads| && ExclusiveStep(s, t, s')
    ensures Keys(s') == Keys(s) || (Keys(s') == {} && s.threads[t].pc.Outside? && AloneOutside(s, t))
  {
    if s.threads[t].pc.Full? && s.size == s.ml {
      RehashAtRest(s, t, s');
      AloneIsResting(s, t);
      SameElementsSameKeys(s, s');
    }
  }

  lemma SameElementsSameKeys(s: State, s': State)
    requires AtRest(s) && AtRest(s') && SameElements(s.arr, s'.arr)
    ensures Keys(s') == Keys(s)
  {
    RestingKeys(s');
    RestingKeys(s);
    assert forall k :: k in Keys(s') <==> k in Keys(s);
  }

  lemma SettledIsValid(s: State)
    requires Shape(s) && ClaimsReachable(s) && ClaimsUnique(s)
    requires forall x :: 0 <= x < |s.claim| ==> SlotSettled(s, x)
    ensures Valid(s.arr) && forall x :: 0 <= x < |s.claim| ==> s.claim[x] == KeyIn(s.arr.slots[x])
  {
    forall x | 0 <= x < |s.arr.slots|
      ensures Settled(s.arr, x) && s.claim[x] == KeyIn(s.arr.slots[x])
    {
      assert SlotSettled(s, x);
    }
    forall x | 0 <= x < |s.arr.slots| && s.arr.slots[x].elem.Some?
      ensures Reaches(s.arr, s.arr.slots[x].elem.value.key, x / 15)
    {
      assert SlotSettled(s, x);
      assert s.claim[x] == Some(s.arr.slots[x].elem.value.key);
    }
    forall x, y | 0 <= x < y < |s.arr.slots| && s.arr.slots[x].elem.Some? && s.arr.slots[y].elem.Some?
      ensures s.arr.slots[x].elem.value.key != s.arr.slots[y].elem.value.key
    {
      assert SlotSettled(s, x) && SlotSettled(s, y);
      assert s.claim[x] != s.claim[y];
    }
  }

  lemma AloneIsResting(s: State, t: nat)
    requires Shape(s) && SlotsOk(s) && ClaimsReachable(s) && ClaimsUnique(s)
    requires t < |s.threads| && AloneOutside(s, t) && s.threads[t].pc.Full?
    ensures AtRest(s)
  {
    AloneSettles(s, t);
    SettledIsValid(s);
    forall u | 0 <= u < |s.threads|
      ensures s.threads[u].pc.Outside? || (s.threads[u].op.Insert? && Apart(s.threads[u].pc))
    {
      assert PcShape(s.arr, s.threads[u]);
    }
  }

  // ----- lock-free lookup misses nothing -----

  predicate Looking(pc: Pc) {
    pc.Match? || pc.Acquire? || pc.Scan? || pc.CheckOverflow?
  }

  ghost predicate Stored(s: State, k: Key) {
    exists x :: 0 <= x < |s.arr.slots| && KeyIn(s.arr.slots[x]) == Some(k)
  }

  /** A constructed element's key counts as present from its insertion's increment of
      the counter on. */
  lemma StoredIsPresent(s: State, k: Key)
    requires Inv(s) && Stored(s, k)
    ensures k in Keys(s)
  {
    var x :| 0 <= x < |s.arr.slots| && KeyIn(s.arr.slots[x]) == Some(k);
    ElementIsClaimed(s, x);
  }

  lemma BumpKeepsClaim(s: State, u: nat, s': State, x: nat)
    requires Inv(s) && u < |s.threads| && CommitStep(s, u, s') && s.threads[u].pc.Bump?
    requires x < |s.claim| && s.claim[x].Some?
    ensures x < |s'.claim| && s'.claim[x] == s.claim[x]
  {
    assert ThreadOk(s, s.threads[u]);
  }

  lemma FoundKeepsClaim(s: State, u: nat, s': State, x: nat, k: Key)
    requires Inv(s) && u < |s.threads| && LookupStep(s, u, s') && s.threads[u].pc.Found?
    requires x < |s.claim| && s.claim[x] == Some(k) && k in Keys(s')
    ensures x < |s'.claim| && s'.claim[x] == Some(k)
  {
    var y := s.threads[u].pc.x;
    FoundHere(s, u);
    LockedSlotSettled(s, u, y);
    FoundOnKeys(s, u, s');
  }

  /** A key present before and after a step is claimed at the same slot. */
  lemma ClaimStays(s: State, u: nat, s': State, x: nat, k: Key)
    requires Inv(s) && u < |s.threads| && InnerStep(s, u, s')
    requires x < |s.claim| && s.claim[x] == Some(k) && k in Keys(s')
    ensures x < |s'.claim| && s'.claim[x] == Some(k)
  {
    match s.threads[u].pc
    case Bump(_, _, _) => BumpKeepsClaim(s, u, s', x);
    case Found(_) => FoundKeepsClaim(s, u, s', x, k);
    case _ => OthersKeepClaims(s, u, s');
  }

  /** Thread t's lookup for k has begun and has slot x, where k is, ahead of it or
      found. */
  ghost predicate OnTrack(s: State, t: nat, x: nat, k: Key) {
    && s.arr.WellFormed() && |s.claim| == |s.arr.slots|
    && t < |s.threads| && s.threads[t].op.Target() == k
    && x < |s.claim| && s.claim[x] == Some(k)
    && Ahead(s.arr, s.threads[t], x)
    && (Looking(s.threads[t].pc) || s.threads[t].pc.Found?)
  }

  lemma OwnLookup(s: State, s': State, t: nat, x: nat, k: Key)
    requires Inv(s) && Shape(s') && OnTrack(s, t, x, k) && Looking(s.threads[t].pc)
    requires InnerStep(s, t, s') && k in Keys(s')
    ensures OnTrack(s', t, x, k)
  {
    ClaimStays(s, t, s', x, k);
    InnerQuiet(s, t, s');
    AheadStep(s, t, s', x);
    if s.threads[t].pc.CheckOverflow? {
      AheadAtOverflow(s, t, s', x);
    }
    LooksOrFinds(s, t, s');
  }

  lemma LooksOrFinds(s: State, t: nat, s': State)
    requires Shape(s) && t < |s.threads| && LookupStep(s, t, s') && Looking(s.threads[t].pc)
    requires s.threads[t].pc.CheckOverflow? ==> t < |s'.threads| && s'.threads[t].pc.Match?
    ensures t < |s'.threads| && (Looking(s'.threads[t].pc) || s'.threads[t].pc.Found?)
  {
  }

  lemma OtherStep(s: State, u: nat, s': State, t: nat, x: nat, k: Key)
    requires Inv(s) && Shape(s') && OnTrack(s, t, x, k) && u != t
    requires u < |s.threads| && InnerStep(s, u, s') && k in Keys(s')
    ensures OnTrack(s', t, x, k)
  {
    ClaimStays(s, u, s', x, k);
    InnerQuiet(s, u, s');
    assert s'.threads[t] == s.threads[t];
    AheadSame(s.arr, s'.arr, s.threads[t], x);
  }

  lemma OtherBegins(s: State, u: nat, s': State, t: nat, x: nat, k: Key)
    requires Shape(s) && Shape(s') && OnTrack(s, t, x, k) && Looking(s.threads[t].pc)
    requires u < |s.threads| && ExclusiveStep(s, u, s')
    ensures OnTrack(s', t, x, k)
  {
    assert u != t && !AloneOutside(s, u);
  }

  lemma LookupTracked(s: State, s': State, t: nat, x: nat, k: Key)
    requires Inv(s) && Inv(s') && Next(s, s') && k in Keys(s')
    requires OnTrack(s, t, x, k) && Looking(s.threads[t].pc)
    ensures OnTrack(s', t, x, k)
  {
    var u :| 0 <= u < |s.threads| && Step(s, u, s');
    if ExclusiveStep(s, u, s') {
      OtherBegins(s, u, s', t, x, k);
    } else if u == t {
      OwnLookup(s, s', t, x, k);
    } else {
      OtherStep(s, u, s', t, x, k);
    }
  }

  /** From state i to state j of a run, thread t keeps looking (up to j) and key k is
      present (including at j). */
  ghost predicate LooksThroughout(run: seq<State>, i: nat, j: nat, t: nat, k: Key)
    requires j < |run|
  {
    && (forall m :: i <= m < j ==> t < |run[m].threads| && Looking(run[m].threads[t].pc))
    && (forall m :: i <= m <= j ==> k in Keys(run[m]))
  }

  lemma {:induction false} LookupRunTracked(run: seq<State>, i: nat, j: nat, t: nat, x: nat, k: Key)
    requires IsRun(run) && i <= j < |run| && LooksThroughout(run, i, j, t, k)
    requires OnTrack(run[i], t, x, k)
    ensures OnTrack(run[j], t, x, k)
    decreases j
  {
    if i < j {
      LookupRunTracked(run, i, j - 1, t, x, k);
      TrackedStep(run, j, t, x, k);
    }
  }

  lemma TrackedStep(run: seq<State>, j: nat, t: nat, x: nat, k: Key)
    requires IsRun(run) && 0 < j < |run|
    requires OnTrack(run[j - 1], t, x, k) && Looking(run[j - 1].threads[t].pc) && k in Keys(run[j])
    ensures OnTrack(run[j], t, x, k)
  {
    RunStep(run, j);
    LookupTracked(run[j - 1], run[j], t, x, k);
  }

  predicate BeginsLookup(th: Thread, k: Key) {
    th.op.Target() == k && th.pc.Match? && th.pc.i == 0 && th.pc.j == 0
  }

  lemma BeginsOnTrack(s: State, t: nat, k: Key) returns (x: nat)
    requires Shape(s) && t < |s.threads| && BeginsLookup(s.threads[t], k) && k in Keys(s)
    ensures OnTrack(s, t, x, k)
  {
    x :| 0 <= x < |s.claim| && s.claim[x] == Some(k);
  }

  /** A visit, insertion or erasure that begins its lookup at moment i never concludes
      that its key is absent while the key stays present, whatever the other threads
      insert, overflow, roll back or erase meanwhile: each next state of the lookup is
      still looking, or has found the key. */
  lemma LookupMissesNothing(run: seq<State>, i: nat, j: nat, t: nat, k: Key)
    requires IsRun(run) && i <= j < |run| && LooksThroughout(run, i, j, t, k)
    requires t < |run[i].threads| && BeginsLookup(run[i].threads[t], k)
    ensures t < |run[j].threads|
    ensures Looking(run[j].threads[t].pc) || run[j].threads[t].pc.Found?
  {
    RunKeeps(run, i);
    var x := BeginsOnTrack(run[i], t, k);
    LookupRunTracked(run, i, j, t, x, k);
  }

  /** So an answer "absent" is right at some moment of the lookup: nobody had won the key
      at a counter then, let alone constructed an element with it. */
  lemma AbsentAnswerWasRight(run: seq<State>, i: nat, j: nat, t: nat, k: Key)
    requires IsRun(run) && i < j < |run|
    requires t < |run[i].threads| && BeginsLookup(run[i].threads[t], k)
    requires forall m :: i <= m < j ==> t < |run[m].threads| && Looking(run[m].threads[t].pc)
    requires t < |run[j].threads| && (run[j].threads[t].pc.Outside? || run[j].threads[t].pc.ReserveSize?)
    ensures exists m :: i <= m <= j && k !in Keys(run[m]) && !Stored(run[m], k)
  {
    if LooksThroughout(run, i, j, t, k) {
      LookupMissesNothing(run, i, j, t, k);
    } else {
      var m :| i <= m <= j && k !in Keys(run[m]);
      RunKeeps(run, m);
      if Stored(run[m], k) {
        StoredIsPresent(run[m], k);
      }
    }
  }

  // ----- load -----

  /** In every state of every run: elements and live reservations, less what erasures
      still owe, stay within the load limit, and the limit within the capacity. */
  lemma LoadWithinLimit(run: seq<State>, i: nat)
    requires IsRun(run) && i < |run|
    ensures Claims(run[i]) + Sum(run[i].threads, WeightAt(run[i].ml)) <= run[i].ml
    ensures 0 <= Claims(run[i]) <= run[i].ml <= run[i].arr.Capacity()
    ensures run[i].size == Claims(run[i]) + Sum(run[i].threads, SizeShare) >= 0
    ensures forall t :: 0 <= t < |run[i].threads| && run[i].threads[t].pc.EraseLoad? ==> run[i].ml >= 1
  {
    RunKeeps(run, i);
    LimitNeverUnderflows(run[i]);
  }

  /** Under exclusive access the size is the number of elements and is at most the load
      limit, so testing them for equality detects every full table. */
  lemma FullMeansEqual(run: seq<State>, i: nat, t: nat)
    requires IsRun(run) && i < |run| && t < |run[i].threads|
    requires AloneOutside(run[i], t) && (run[i].threads[t].pc.Outside? || run[i].threads[t].pc.Full?)
    ensures run[i].size == Sum(run[i].arr.slots, Holds)
    ensures run[i].size >= run[i].ml <==> run[i].size == run[i].ml
  {
    RunKeeps(run, i);
    AloneSettled(run[i], t);
  }

  /** An insertion granted a reservation has a free slot to look for at every moment of
      its search. */
  lemma GrantedInsertionHasRoom(run: seq<State>, i: nat, t: nat)
    requires IsRun(run) && i < |run| && t < |run[i].threads| && HasReservation(run[i].threads[t])
    ensures exists x :: 0 <= x < |run[i].arr.slots| && run[i].arr.slots[x].meta == AVAILABLE
  {
    RunKeeps(run, i);
    ReservationHasRoom(run[i], t);
  }

  /** No two threads hold conflicting group locks, and every half-changed slot is under
      its worker's exclusive lock. */
  lemma GroupLocksExclude(run: seq<State>, i: nat, t: nat, u: nat)
    requires IsRun(run) && i < |run| && t < |run[i].threads| && u < |run[i].threads| && t != u
    ensures Compatible(Held(run[i].threads[t]), Held(run[i].threads[u]))
    ensures Work(run[i].threads[t]).Some? ==> Work(run[i].threads[t]) != Work(run[i].threads[u])
  {
    RunKeeps(run, i);
  }
}
