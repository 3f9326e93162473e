/** The map that the operations of a run amount to, and the arrays that show it. */
module ProtocolTable {
  import opened Tables
  import opened TableModel
  import opened Protocol
  import opened ProtocolInvariant
  import opened ProtocolAccounts
  import opened ProtocolTheorems

  /** The element in slot x has just been constructed, and its callback is still to come. */
  ghost predicate BeingInserted(s: State, x: nat) {
    exists t :: 0 <= t < |s.threads| && s.threads[t].pc == Inserted(x)
  }

  /** The element in slot x, if any, is in the map. */
  ghost predicate Shown(s: State, x: nat)
    requires x < |s.arr.slots|
  {
    s.arr.slots[x].elem.Some? ==>
      var e := s.arr.slots[x].elem.value;
      e.key in s.table && s.table[e.key] == e.val
  }

  /** What an insertion that has won its slot will store is in the map already. */
  ghost predicate Promised(s: State, th: Thread) {
    th.pc.Construct? || th.pc.Inserted? ==>
      && th.op.Insert?
      && th.op.elem.key in s.table && s.table[th.op.elem.key] == th.op.initial(th.op.elem.val)
      && (th.pc.Inserted? ==> th.pc.x < |s.arr.slots| && s.arr.slots[th.pc.x].elem == Some(th.op.elem))
  }

  ghost predicate TableOk(s: State) {
    && s.table.Keys == Keys(s)
    && (forall x :: 0 <= x < |s.arr.slots| ==> Shown(s, x) || BeingInserted(s, x))
    && (forall t :: 0 <= t < |s.threads| ==> Promised(s, s.threads[t]))
  }

  // ----- steps that leave the elements alone -----

  predicate Constructing(pc: Pc) { pc.Construct? || pc.Inserted? }

  ghost predicate ElementsStay(s: State, s': State) {
    && |s'.arr.slots| == |s.arr.slots|
    && forall x :: 0 <= x < |s.arr.slots| ==> s'.arr.slots[x].elem == s.arr.slots[x].elem
  }

  lemma PlainTable(s: State, t: nat, s': State)
    requires TableOk(s) && t < |s.threads| == |s'.threads| && s'.threads == s.threads[t := s'.threads[t]]
    requires s'.table == s.table && s'.claim == s.claim && ElementsStay(s, s')
    requires !Constructing(s.threads[t].pc) && !Constructing(s'.threads[t].pc)
    ensures TableOk(s')
  {
    forall x | 0 <= x < |s'.arr.slots| ensures Shown(s', x) || BeingInserted(s', x) {
      if BeingInserted(s, x) {
        var u :| 0 <= u < |s.threads| && s.threads[u].pc == Inserted(x);
        assert s'.threads[u].pc == Inserted(x);
      } else {
        assert Shown(s, x);
      }
    }
    forall u | 0 <= u < |s'.threads| ensures Promised(s', s'.threads[u]) {
      assert Promised(s, s.threads[u]);
    }
  }

  lemma PickTable(s: State, t: nat, s': State)
    requires Inv(s) && t < |s.threads| && ReserveStep(s, t, s') && s.threads[t].pc.PickSlot?
    ensures s'.table == s.table && ElementsStay(s, s') && t < |s'.threads| && !Constructing(s'.threads[t].pc)
  {
    if !GroupFull(s.arr, s.threads[t].pc.g) {
      var x := Picked(s, t, s');
      LockedSlotSettled(s, t, x);
    }
  }

  lemma ReserveTable(s: State, t: nat, s': State)
    requires Shape(s) && t < |s.threads| && ReserveStep(s, t, s') && !s.threads[t].pc.PickSlot?
    ensures s'.table == s.table && s'.arr == s.arr && t < |s'.threads| && !Constructing(s'.threads[t].pc)
  {
  }

  lemma LookupTable(s: State, t: nat, s': State)
    requires Shape(s) && t < |s.threads| && LookupStep(s, t, s') && !s.threads[t].pc.Found?
    ensures s'.table == s.table && s'.arr == s.arr && t < |s'.threads| && !Constructing(s'.threads[t].pc)
  {
  }

  lemma EraseTable(s: State, t: nat, s': State)
    requires Shape(s) && t < |s.threads| && EraseStep(s, t, s')
    ensures s'.table == s.table && ElementsStay(s, s') && t < |s'.threads| && !Constructing(s'.threads[t].pc)
  {
  }

  lemma UndoTable(s: State, t: nat, s': State)
    requires Shape(s) && t < |s.threads| && CommitStep(s, t, s')
    requires !Constructing(s.threads[t].pc) && !Commits(s, t)
    ensures s'.table == s.table && ElementsStay(s, s') && t < |s'.threads| && !Constructing(s'.threads[t].pc)
    ensures s'.claim == s.claim
  {
  }

  // ----- steps that change one element -----

  /** The claim on slot x is the only one on its key, and whoever is about to construct or
      has constructed an element elsewhere has another key. */
  lemma OthersElsewhere(s: State, t: nat, x: nat, u: nat)
    requires Inv(s) && t < |s.threads| && Held(s.threads[t]) == Exclusive(x / 15)
    requires u < |s.threads| && u != t && Constructing(s.threads[u].pc)
    ensures s.threads[u].pc.x != x && s.threads[u].pc.x < |s.claim|
    ensures s.claim[s.threads[u].pc.x] == Some(s.threads[u].op.Target())
  {
    assert Compatible(Held(s.threads[t]), Held(s.threads[u]));
    assert ThreadOk(s, s.threads[u]);
    if s.threads[u].pc.Inserted? {
      ElementIsClaimed(s, s.threads[u].pc.x);
    }
  }

  /** Thread t changes the element in slot x, and what the map says of one key: that of the
      element, which is claimed nowhere else. */
  ghost predicate ChangesAt(s: State, t: nat, s': State, x: nat, key: Key) {
    && t < |s.threads| == |s'.threads| && s'.threads == s.threads[t := s'.threads[t]]
    && x < |s.arr.slots| == |s'.arr.slots| == |s.claim|
    && (forall y :: 0 <= y < |s.arr.slots| && y != x ==> s'.arr.slots[y] == s.arr.slots[y])
    && (forall k :: k != key ==> (k in s'.table <==> k in s.table))
    && (forall k :: k != key && k in s.table ==> s'.table[k] == s.table[k])
    && (forall y :: 0 <= y < |s.claim| && y != x ==> s.claim[y] != Some(key))
  }

  lemma OtherSlotShown(s: State, t: nat, s': State, x: nat, key: Key, y: nat)
    requires Inv(s) && TableOk(s) && ChangesAt(s, t, s', x, key) && y < |s.arr.slots| && y != x
    requires s.threads[t].pc != Inserted(y)
    ensures Shown(s', y) || BeingInserted(s', y)
  {
    if BeingInserted(s, y) {
      var u :| 0 <= u < |s.threads| && s.threads[u].pc == Inserted(y);
      assert s'.threads[u].pc == Inserted(y);
    } else if s.arr.slots[y].elem.Some? {
      assert Shown(s, y);
      ElementIsClaimed(s, y);
    }
  }

  lemma OtherPromised(s: State, t: nat, s': State, x: nat, key: Key, u: nat)
    requires Inv(s) && TableOk(s) && ChangesAt(s, t, s', x, key) && Held(s.threads[t]) == Exclusive(x / 15)
    requires u < |s.threads| && u != t
    ensures Promised(s', s'.threads[u])
  {
    assert s'.threads[u] == s.threads[u] && Promised(s, s.threads[u]);
    if Constructing(s.threads[u].pc) {
      OthersElsewhere(s, t, x, u);
    }
  }

  lemma OneChange(s: State, t: nat, s': State, x: nat, key: Key)
    requires Inv(s) && TableOk(s) && ChangesAt(s, t, s', x, key) && Held(s.threads[t]) == Exclusive(x / 15)
    requires s.threads[t].pc.Inserted? ==> s.threads[t].pc.x == x
    requires s'.table.Keys == Keys(s')
    requires Shown(s', x) || BeingInserted(s', x)
    requires Promised(s', s'.threads[t])
    ensures TableOk(s')
  {
    forall y | 0 <= y < |s'.arr.slots| ensures Shown(s', y) || BeingInserted(s', y) {
      if y != x {
        OtherSlotShown(s, t, s', x, key, y);
      }
    }
    forall u | 0 <= u < |s'.threads| ensures Promised(s', s'.threads[u]) {
      if u != t {
        OtherPromised(s, t, s', x, key, u);
      }
    }
  }

  /** What a thread that has found its key knows of the map. */
  lemma FoundInTable(s: State, t: nat)
    requires Inv(s) && TableOk(s) && t < |s.threads| && s.threads[t].pc.Found?
    ensures var x, key := s.threads[t].pc.x, s.threads[t].op.Target();
      && x < |s.claim| == |s.arr.slots| && s.claim[x] == Some(key) && KeyIn(s.arr.slots[x]) == Some(key)
      && key in s.table && s.table[key] == ValueIn(s.arr.slots[x])
      && (forall y :: 0 <= y < |s.claim| && y != x ==> s.claim[y] != Some(key))
  {
    var x := s.threads[t].pc.x;
    FoundHere(s, t);
    ElementIsClaimed(s, x);
    FinderIsAlone(s, t);
    assert Shown(s, x);
  }

  lemma FinderIsAlone(s: State, t: nat)
    requires LocksOk(s) && t < |s.threads| && s.threads[t].pc.Found?
    ensures !BeingInserted(s, s.threads[t].pc.x)
  {
    forall u | 0 <= u < |s.threads| ensures s.threads[u].pc != Inserted(s.threads[t].pc.x) {
      assert u != t ==> Compatible(Held(s.threads[t]), Held(s.threads[u]));
    }
  }

  /** Nobody else has won this key. */
  ghost predicate OnlyClaim(s: State, x: nat, key: Key) {
    forall y :: 0 <= y < |s.claim| && y != x ==> s.claim[y] != Some(key)
  }

  lemma UpdateChanges(s: State, t: nat, s': State, x: nat)
    requires Shape(s) && t < |s.threads| && LookupStep(s, t, s') && s.threads[t].pc == Found(x)
    requires s.threads[t].op.LocksExclusively() && !s.threads[t].op.Erase?
    requires x < |s.arr.slots| && OnlyClaim(s, x, s.threads[t].op.Target())
    requires var key := s.threads[t].op.Target(); key in s.table && s.table[key] == ValueIn(s.arr.slots[x])
    ensures ChangesAt(s, t, s', x, s.threads[t].op.Target()) && Shown(s', x)
    ensures s'.table.Keys == s.table.Keys && !Constructing(s'.threads[t].pc)
  {
  }

  lemma EraseChanges(s: State, t: nat, s': State, x: nat)
    requires Shape(s) && t < |s.threads| && LookupStep(s, t, s') && s.threads[t].pc == Found(x)
    requires s.threads[t].op.Erase? && x < |s.arr.slots| && OnlyClaim(s, x, s.threads[t].op.Target())
    ensures ChangesAt(s, t, s', x, s.threads[t].op.Target()) && Shown(s', x)
    ensures s'.table.Keys == s.table.Keys - {s.threads[t].op.Target()} && !Constructing(s'.threads[t].pc)
  {
  }

  lemma SharedChangesNothing(s: State, t: nat, s': State)
    requires Shape(s) && t < |s.threads| && LookupStep(s, t, s') && s.threads[t].pc.Found?
    requires !s.threads[t].op.LocksExclusively()
    ensures s'.table == s.table && s'.claim == s.claim && s'.arr == s.arr
    ensures t < |s'.threads| && !Constructing(s'.threads[t].pc)
  {
  }

  lemma FoundTable(s: State, t: nat, s': State)
    requires Inv(s) && TableOk(s) && t < |s.threads| && LookupStep(s, t, s') && s.threads[t].pc.Found?
    ensures TableOk(s')
  {
    var x, key := s.threads[t].pc.x, s.threads[t].op.Target();
    FoundInTable(s, t);
    FoundOnKeys(s, t, s');
    if !s.threads[t].op.LocksExclusively() {
      LookupQuiet(s, t, s');
      SharedChangesNothing(s, t, s');
      PlainTable(s, t, s');
    } else {
      FoundChanges(s, t, s', x);
      OneChange(s, t, s', x, key);
    }
  }

  lemma FoundChanges(s: State, t: nat, s': State, x: nat)
    requires Shape(s) && t < |s.threads| && LookupStep(s, t, s') && s.threads[t].pc == Found(x)
    requires s.threads[t].op.LocksExclusively() && x < |s.arr.slots| && OnlyClaim(s, x, s.threads[t].op.Target())
    requires var key := s.threads[t].op.Target(); key in s.table && s.table[key] == ValueIn(s.arr.slots[x])
    ensures ChangesAt(s, t, s', x, s.threads[t].op.Target()) && Shown(s', x) && !Constructing(s'.threads[t].pc)
    ensures s'.table.Keys
      == if s.threads[t].op.Erase? then s.table.Keys - {s.threads[t].op.Target()} else s.table.Keys
  {
    if s.threads[t].op.Erase? {
      EraseChanges(s, t, s', x);
    } else {
      UpdateChanges(s, t, s', x);
    }
  }

  lemma CommitChanges(s: State, t: nat, s': State, x: nat)
    requires Shape(s) && t < |s.threads| && CommitStep(s, t, s') && Commits(s, t) && s.threads[t].pc.x == x
    requires x < |s.arr.slots| && s.threads[t].op.Insert? && s.arr.slots[x].elem == None
    requires s.threads[t].op.Target() !in Keys(s)
    ensures ChangesAt(s, t, s', x, s.threads[t].op.Target()) && Shown(s', x)
    ensures s'.table.Keys == s.table.Keys + {s.threads[t].op.Target()} && Promised(s', s'.threads[t])
  {
  }

  lemma CommitTable(s: State, t: nat, s': State)
    requires Inv(s) && TableOk(s) && t < |s.threads| && CommitStep(s, t, s') && Commits(s, t)
    ensures TableOk(s')
  {
    var x := s.threads[t].pc.x;
    assert ThreadOk(s, s.threads[t]);
    BumpOnKeys(s, t, s');
    CommitChanges(s, t, s', x);
    OneChange(s, t, s', x, s.threads[t].op.Target());
  }

  lemma ConstructChanges(s: State, t: nat, s': State, x: nat)
    requires Shape(s) && t < |s.threads| && CommitStep(s, t, s') && s.threads[t].pc == Construct(x)
    requires x < |s.arr.slots| && Promised(s, s.threads[t]) && OnlyClaim(s, x, s.threads[t].op.Target())
    ensures ChangesAt(s, t, s', x, s.threads[t].op.Target()) && BeingInserted(s', x)
    ensures s'.table == s.table && Promised(s', s'.threads[t])
  {
    assert PcShape(s.arr, s.threads[t]);
    assert s'.threads[t].pc == Inserted(x);
  }

  lemma InsertedChanges(s: State, t: nat, s': State, x: nat)
    requires Shape(s) && t < |s.threads| && CommitStep(s, t, s') && s.threads[t].pc == Inserted(x)
    requires x < |s.arr.slots| && Promised(s, s.threads[t]) && OnlyClaim(s, x, s.threads[t].op.Target())
    ensures ChangesAt(s, t, s', x, s.threads[t].op.Target()) && Shown(s', x)
    ensures s'.table == s.table && !Constructing(s'.threads[t].pc)
  {
  }

  /** The claim of a thread that constructs. */
  lemma ConstructorsClaim(s: State, t: nat)
    requires Inv(s) && t < |s.threads| && Constructing(s.threads[t].pc)
    ensures s.threads[t].pc.x < |s.claim| && s.claim[s.threads[t].pc.x] == Some(s.threads[t].op.Target())
    ensures OnlyClaim(s, s.threads[t].pc.x, s.threads[t].op.Target())
  {
    assert ThreadOk(s, s.threads[t]);
    if s.threads[t].pc.Inserted? {
      ElementIsClaimed(s, s.threads[t].pc.x);
    }
  }

  lemma ConstructTable(s: State, t: nat, s': State)
    requires Inv(s) && TableOk(s) && t < |s.threads| && CommitStep(s, t, s') && Constructing(s.threads[t].pc)
    ensures TableOk(s')
  {
    var x := s.threads[t].pc.x;
    assert Promised(s, s.threads[t]);
    ConstructorsClaim(s, t);
    CommitKeepsClaims(s, t, s');
    if s.threads[t].pc.Construct? {
      ConstructChanges(s, t, s', x);
    } else {
      InsertedChanges(s, t, s', x);
    }
    OneChange(s, t, s', x, s.threads[t].op.Target());
  }

  lemma CommitStepTable(s: State, t: nat, s': State)
    requires Inv(s) && TableOk(s) && t < |s.threads| && CommitStep(s, t, s')
    ensures TableOk(s')
  {
    if Constructing(s.threads[t].pc) {
      ConstructTable(s, t, s');
    } else if Commits(s, t) {
      CommitTable(s, t, s');
    } else {
      UndoTable(s, t, s');
      CommitQuiet(s, t, s');
      PlainTable(s, t, s');
    }
  }

  lemma QuietTable(s: State, t: nat, s': State)
    requires Inv(s) && TableOk(s) && t < |s.threads| && InnerStep(s, t, s') && !s.threads[t].pc.Found?
    requires !CommitStep(s, t, s')
    ensures TableOk(s')
  {
    if LookupStep(s, t, s') {
      LookupTable(s, t, s');
      LookupKeepsClaims(s, t, s');
    } else if EraseStep(s, t, s') {
      EraseTable(s, t, s');
      ReserveKeepsClaims(s, t, s');
    } else {
      ReserveKeepsClaims(s, t, s');
      if s.threads[t].pc.PickSlot? {
        PickTable(s, t, s');
      } else {
        ReserveTable(s, t, s');
      }
    }
    InnerQuiet(s, t, s');
    NotConstructing(s, t, s');
    PlainTable(s, t, s');
  }

  lemma NotConstructing(s: State, t: nat, s': State)
    requires Shape(s) && t < |s.threads| && InnerStep(s, t, s') && !CommitStep(s, t, s')
    ensures !Constructing(s.threads[t].pc)
  {
  }

  lemma InnerTable(s: State, t: nat, s': State)
    requires Inv(s) && TableOk(s) && t < |s.threads| && InnerStep(s, t, s')
    ensures TableOk(s')
  {
    if CommitStep(s, t, s') {
      CommitStepTable(s, t, s');
    } else if s.threads[t].pc.Found? {
      FoundTable(s, t, s');
    } else {
      QuietTable(s, t, s');
    }
  }

  // ----- container-wide steps -----

  lemma AloneShows(s: State, t: nat)
    requires TableOk(s) && t < |s.threads| && AloneOutside(s, t) && Apart(s.threads[t].pc)
    ensures forall x :: 0 <= x < |s.arr.slots| ==> Shown(s, x)
  {
    forall x | 0 <= x < |s.arr.slots| ensures Shown(s, x) {
      assert !BeingInserted(s, x);
    }
  }

  lemma SameElementsShown(s: State, s': State)
    requires SameElements(s.arr, s'.arr) && s'.table == s.table
    requires forall x :: 0 <= x < |s.arr.slots| ==> Shown(s, x)
    ensures forall x :: 0 <= x < |s'.arr.slots| ==> Shown(s', x)
  {
    forall x | 0 <= x < |s'.arr.slots| ensures Shown(s', x) {
      if s'.arr.slots[x].elem.Some? {
        var e := s'.arr.slots[x].elem.value;
        assert Stores(s'.arr, e);
        var y :| 0 <= y < |s.arr.slots| && s.arr.slots[y].elem == Some(e);
        assert Shown(s, y);
      }
    }
  }

  lemma RehashTable(s: State, t: nat, s': State)
    requires Inv(s) && Accounts(s) && TableOk(s) && t < |s.threads| && ExclusiveStep(s, t, s')
    requires s.threads[t].pc.Full? && s.size == s.ml
    ensures TableOk(s')
  {
    AloneShows(s, t);
    ExclusiveStepOnKeys(s, t, s');
    RehashKeepsTable(s, t, s');
  }

  lemma RehashKeepsTable(s: State, t: nat, s': State)
    requires TableOk(s) && Shape(s) && t < |s.threads| && ExclusiveStep(s, t, s') && Keys(s') == Keys(s)
    requires s.threads[t].pc.Full? && s.size == s.ml && forall x :: 0 <= x < |s.arr.slots| ==> Shown(s, x)
    ensures TableOk(s')
  {
    SameElementsShown(s, s');
  }

  lemma ClearTable(s: State, t: nat, s': State)
    requires Inv(s) && t < |s.threads| && ExclusiveStep(s, t, s')
    requires s.threads[t].pc.Outside? && s'.threads == s.threads && s' != s
    ensures TableOk(s')
  {
    ClearAtRest(s, t, s');
  }

  lemma BeginTable(s: State, t: nat, s': State)
    requires TableOk(s) && Shape(s) && t < |s.threads| && ExclusiveStep(s, t, s')
    requires s.threads[t].pc.Full? ==> s.size != s.ml
    requires s.threads[t].pc.Outside? ==> s'.threads != s.threads
    ensures TableOk(s')
  {
    BeginWeighsNothing(s, t, s');
    PlainTable(s, t, s');
  }

  lemma StepTable(s: State, t: nat, s': State)
    requires Inv(s) && Accounts(s) && TableOk(s) && t < |s.threads| && Step(s, t, s')
    ensures TableOk(s')
  {
    if InnerStep(s, t, s') {
      InnerTable(s, t, s');
    } else if s.threads[t].pc.Full? && s.size == s.ml {
      RehashTable(s, t, s');
    } else if s.threads[t].pc.Outside? && s'.threads == s.threads {
      if s' != s {
        ClearTable(s, t, s');
      }
    } else {
      BeginTable(s, t, s');
    }
  }

  // ----- runs -----

  lemma InitialTable(s: State)
    requires Initial(s)
    ensures TableOk(s)
  {
    forall k ensures k in s.table <==> k in Keys(s) {
      ModelKeys(s.arr.slots, k);
      if k in Keys(s) {
        var x :| 0 <= x < |s.claim| && s.claim[x] == Some(k);
        assert KeyIn(s.arr.slots[x]) == Some(k);
      }
      if x :| 0 <= x < |s.arr.slots| && KeyIn(s.arr.slots[x]) == Some(k) {
        assert s.claim[x] == Some(k);
      }
    }
    forall x | 0 <= x < |s.arr.slots| ensures Shown(s, x) {
      if s.arr.slots[x].elem.Some? {
        ModelValue(s.arr.slots, x);
      }
    }
  }

  /** Everything known of a state of a run. */
  ghost predicate Sound(s: State) {
    Inv(s) && Accounts(s) && TableOk(s)
  }

  lemma InitialSound(s: State)
    requires Initial(s)
    ensures Sound(s)
  {
    AtRestInv(s);
    AtRestAccounts(s);
    InitialTable(s);
  }

  lemma StepSound(s: State, t: nat, s': State)
    requires Sound(s) && t < |s.threads| && Step(s, t, s')
    ensures Sound(s')
  {
    StepKeeps(s, t, s');
    AccountsKept(s, t, s');
    StepTable(s, t, s');
  }

  lemma NextSound(s: State, s': State)
    requires Sound(s) && Next(s, s')
    ensures Sound(s')
  {
    var t :| 0 <= t < |s.threads| && Step(s, t, s');
    StepSound(s, t, s');
  }

  lemma {:induction false} RunSound(run: seq<State>, i: nat)
    requires IsRun(run) && i < |run|
    ensures Sound(run[i])
  {
    if i == 0 {
      InitialSound(run[0]);
    } else {
      RunSound(run, i - 1);
      RunNext(run, i);
      NextSound(run[i - 1], run[i]);
    }
  }

  lemma RunTable(run: seq<State>, i: nat)
    requires IsRun(run) && i < |run|
    ensures TableOk(run[i])
  {
    RunSound(run, i);
  }

  /** Whenever nobody is inside the container, the map is exactly what its arrays hold. */
  lemma TableAtRest(run: seq<State>, i: nat, t: nat)
    requires IsRun(run) && i < |run| && t < |run[i].threads|
    requires AloneOutside(run[i], t) && (run[i].threads[t].pc.Outside? || run[i].threads[t].pc.Full?)
    ensures run[i].table == ModelOf(run[i].arr.slots)
  {
    RunSound(run, i);
    AloneIsModel(run[i], t);
  }

  lemma AloneIsModel(s: State, t: nat)
    requires Inv(s) && TableOk(s) && t < |s.threads| && AloneOutside(s, t)
    requires s.threads[t].pc.Outside? || s.threads[t].pc.Full?
    ensures s.table == ModelOf(s.arr.slots)
  {
    AloneShows(s, t);
    AloneSettles(s, t);
    SettledIsValid(s);
    ShownIsModel(s);
  }

  lemma ShownIsModel(s: State)
    requires Valid(s.arr) && |s.claim| == |s.arr.slots| && s.table.Keys == Keys(s)
    requires forall x :: 0 <= x < |s.claim| ==> s.claim[x] == KeyIn(s.arr.slots[x])
    requires forall x :: 0 <= x < |s.arr.slots| ==> Shown(s, x)
    ensures s.table == ModelOf(s.arr.slots)
  {
    var model := ModelOf(s.arr.slots);
    forall k ensures k in s.table <==> k in model
      ensures k in s.table ==> s.table[k] == model[k]
    {
      ModelKeys(s.arr.slots, k);
      if k in Keys(s) {
        var x :| 0 <= x < |s.claim| && s.claim[x] == Some(k);
        assert KeyIn(s.arr.slots[x]) == Some(k) && Shown(s, x);
        ModelValue(s.arr.slots, x);
      }
    }
  }
}
