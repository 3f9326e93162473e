/** Load accounting of the concurrent table: what the atomic size and load-limit
    counters mean while insertions and erasures are under way. */
module ProtocolAccounts {
  import opened Counting
  import opened Tables
  import opened TableModel
  import opened Protocol
  import opened ProtocolInvariant

  function Taken(claim: Option<Key>): int { if claim.Some? then 1 else 0 }

  /** What a thread in mid-operation adds to the size counter. */
  function SizeShare(th: Thread): int {
    match th.pc
    case CheckSize(_, _) => 1
    case GiveBack => 1
    case AcquireSlot(_, _, _) => 1
    case PickSlot(_, _, _) => 1
    case Overflowed(_, _, _) => 1
    case Bump(_, _, _) => 1
    case Undo(_) => 1
    case UndoRelease(_) => 1
    case UndoSize => 1
    case EraseLoad(_) => 1
    case EraseReset(_, _) => 1
    case EraseCount(_, _) => 1
    case _ => 0
  }

  /** The same, leaving out reservations doomed under load limit `ml` and erasures
      that have already lowered the limit. */
  function Weight(th: Thread, ml: int): int {
    match th.pc
    case CheckSize(_, reserved) => if reserved <= ml then 1 else 0
    case GiveBack => 0
    case EraseReset(_, d) => 1 - d
    case EraseCount(_, d) => 1 - d
    case _ => SizeShare(th)
  }

  function WeightAt(ml: int): Thread -> int { th => Weight(th, ml) }

  /** By how much a thread has lowered the load limit without lowering the size yet. */
  function Debt(th: Thread): int {
    match th.pc
    case EraseReset(_, d) => d
    case EraseCount(_, d) => d
    case _ => 0
  }

  /** Slots occupied without a claim. */
  function Tentative(th: Thread): int {
    match th.pc
    case Bump(_, _, _) => 1
    case Undo(_) => 1
    case EraseLoad(_) => 1
    case EraseReset(_, _) => 1
    case _ => 0
  }

  function Claims(s: State): int { Sum(s.claim, Taken) }

  ghost predicate SizeAccount(s: State) {
    s.size == Claims(s) + Sum(s.threads, SizeShare)
  }

  ghost predicate LoadAccount(s: State) {
    Claims(s) + Sum(s.threads, WeightAt(s.ml)) <= s.ml
  }

  ghost predicate LimitAccount(s: State) {
    s.ml + Sum(s.threads, Debt) <= s.arr.Capacity()
  }

  ghost predicate SlotAccount(s: State) {
    Sum(s.arr.slots, Occupies) == s.arr.Sentinels() + Claims(s) + Sum(s.threads, Tentative)
  }

  ghost predicate Accounts(s: State) {
    SizeAccount(s) && LoadAccount(s) && LimitAccount(s) && SlotAccount(s)
  }

  // ----- how one step moves the sums -----

  /** Change of the number of claims. */
  function ClaimChange(s: State, t: nat): int
    requires Shape(s) && t < |s.threads|
  {
    var th := s.threads[t];
    match th.pc
    case Found(_) => if th.op.Erase? then -1 else 0
    case Bump(_, _, c) => if s.count[Home(s.arr.bits, th.op.Target())] == c then 1 else 0
    case _ => 0
  }

  /** Change of the number of occupied slots. */
  function SlotChange(s: State, t: nat): int
    requires Shape(s) && t < |s.threads|
  {
    var th := s.threads[t];
    match th.pc
    case EraseReset(_, _) => -1
    case Undo(_) => -1
    case PickSlot(_, g, _) => if GroupFull(s.arr, g) then 0 else 1
    case _ => 0
  }

  ghost predicate InnerStep(s: State, t: nat, s': State)
    requires Shape(s) && t < |s.threads|
  {
    LookupStep(s, t, s') || EraseStep(s, t, s') || ReserveStep(s, t, s') || CommitStep(s, t, s')
  }

  lemma ClaimsMove(s: State, t: nat, s': State)
    requires Inv(s) && t < |s.threads| && InnerStep(s, t, s')
    ensures Claims(s') == Claims(s) + ClaimChange(s, t)
  {
    match s.threads[t].pc
    case Found(x) => FoundClaims(s, t, x, s');
    case Bump(_, x, _) => BumpClaims(s, t, x, s');
    case _ => OthersKeepClaims(s, t, s');
  }

  /** Only erasing what was found and winning at the counter touch the claims. */
  lemma OthersKeepClaims(s: State, t: nat, s': State)
    requires Shape(s) && t < |s.threads| && InnerStep(s, t, s')
    requires !s.threads[t].pc.Found? && !s.threads[t].pc.Bump?
    ensures s'.claim == s.claim
  {
    if LookupStep(s, t, s') {
      LookupKeepsClaims(s, t, s');
    } else if CommitStep(s, t, s') {
      CommitKeepsClaims(s, t, s');
    } else {
      ReserveKeepsClaims(s, t, s');
    }
  }

  lemma LookupKeepsClaims(s: State, t: nat, s': State)
    requires Shape(s) && t < |s.threads| && LookupStep(s, t, s') && !s.threads[t].pc.Found?
    ensures s'.claim == s.claim
  {}

  lemma CommitKeepsClaims(s: State, t: nat, s': State)
    requires Shape(s) && t < |s.threads| && CommitStep(s, t, s') && !s.threads[t].pc.Bump?
    ensures s'.claim == s.claim
  {}

  lemma FoundClaims(s: State, t: nat, x: nat, s': State)
    requires Inv(s) && t < |s.threads| && LookupStep(s, t, s') && s.threads[t].pc == Found(x)
    ensures Claims(s') == Claims(s) + ClaimChange(s, t)
  {
    assert ThreadOk(s, s.threads[t]);
    LockedSlotSettled(s, t, x);
    SumUpdate(s.claim, x, None, Taken);
  }

  lemma BumpClaims(s: State, t: nat, x: nat, s': State)
    requires Inv(s) && t < |s.threads| && CommitStep(s, t, s')
    requires s.threads[t].pc.Bump? && s.threads[t].pc.x == x
    ensures Claims(s') == Claims(s) + ClaimChange(s, t)
  {
    assert ThreadOk(s, s.threads[t]);
    SumUpdate(s.claim, x, Some(s.threads[t].op.Target()), Taken);
  }

  lemma SlotsMove(s: State, t: nat, s': State)
    requires Inv(s) && t < |s.threads| && InnerStep(s, t, s')
    ensures Sum(s'.arr.slots, Occupies) == Sum(s.arr.slots, Occupies) + SlotChange(s, t)
  {
    if s.threads[t].pc.PickSlot? {
      PickMoves(s, t, s');
    } else if s.threads[t].pc.Found? {
      FoundMoves(s, t, s');
    } else if CommitStep(s, t, s') {
      CommitMoves(s, t, s');
    } else if EraseStep(s, t, s') {
      EraseMoves(s, t, s');
    }
  }

  lemma FoundMoves(s: State, t: nat, s': State)
    requires Inv(s) && t < |s.threads| && LookupStep(s, t, s') && s.threads[t].pc.Found?
    ensures Sum(s'.arr.slots, Occupies) == Sum(s.arr.slots, Occupies)
  {
    var x := s.threads[t].pc.x;
    SumUpdate(s.arr.slots, x, s'.arr.slots[x], Occupies);
  }

  lemma CommitMoves(s: State, t: nat, s': State)
    requires Inv(s) && t < |s.threads| && CommitStep(s, t, s')
    ensures Sum(s'.arr.slots, Occupies) == Sum(s.arr.slots, Occupies) + SlotChange(s, t)
  {
    assert ThreadOk(s, s.threads[t]);
    match s.threads[t].pc
    case Undo(x) => SumUpdate(s.arr.slots, x, s'.arr.slots[x], Occupies);
    case Construct(x) => SumUpdate(s.arr.slots, x, s'.arr.slots[x], Occupies);
    case Inserted(x) => SumUpdate(s.arr.slots, x, s'.arr.slots[x], Occupies);
    case _ =>
  }

  lemma EraseMoves(s: State, t: nat, s': State)
    requires Inv(s) && t < |s.threads| && EraseStep(s, t, s')
    ensures Sum(s'.arr.slots, Occupies) == Sum(s.arr.slots, Occupies) + SlotChange(s, t)
  {
    assert ThreadOk(s, s.threads[t]);
    match s.threads[t].pc
    case EraseReset(x, _) => SumUpdate(s.arr.slots, x, s'.arr.slots[x], Occupies);
    case _ =>
  }

  lemma PickMoves(s: State, t: nat, s': State)
    requires Inv(s) && t < |s.threads| && ReserveStep(s, t, s') && s.threads[t].pc.PickSlot?
    ensures Sum(s'.arr.slots, Occupies) == Sum(s.arr.slots, Occupies) + SlotChange(s, t)
  {
    if !GroupFull(s.arr, s.threads[t].pc.g) {
      var x := s'.threads[t].pc.x;
      SumUpdate(s.arr.slots, x, s'.arr.slots[x], Occupies);
    }
  }

  lemma InnerQuiet(s: State, t: nat, s': State)
    requires Shape(s) && t < |s.threads| && InnerStep(s, t, s')
    ensures Quiet(s, t, s') && s'.threads[t].op == s.threads[t].op
  {
    if LookupStep(s, t, s') {
      LookupQuiet(s, t, s');
    } else if EraseStep(s, t, s') {
      EraseQuiet(s, t, s');
    } else if ReserveStep(s, t, s') {
      ReserveQuiet(s, t, s');
    } else {
      CommitQuiet(s, t, s');
    }
  }

  lemma LookupSizeMoves(s: State, t: nat, s': State)
    requires Shape(s) && t < |s.threads| && LookupStep(s, t, s')
    ensures s'.size - s.size == ClaimChange(s, t) + SizeShare(s'.threads[t]) - SizeShare(s.threads[t])
    ensures SlotChange(s, t) == ClaimChange(s, t) + Tentative(s'.threads[t]) - Tentative(s.threads[t])
  {
  }

  lemma EraseSizeMoves(s: State, t: nat, s': State)
    requires Shape(s) && t < |s.threads| && EraseStep(s, t, s')
    ensures s'.size - s.size == ClaimChange(s, t) + SizeShare(s'.threads[t]) - SizeShare(s.threads[t])
    ensures SlotChange(s, t) == ClaimChange(s, t) + Tentative(s'.threads[t]) - Tentative(s.threads[t])
  {
  }

  lemma ReserveSizeMoves(s: State, t: nat, s': State)
    requires Shape(s) && t < |s.threads| && ReserveStep(s, t, s')
    ensures s'.size - s.size == ClaimChange(s, t) + SizeShare(s'.threads[t]) - SizeShare(s.threads[t])
    ensures SlotChange(s, t) == ClaimChange(s, t) + Tentative(s'.threads[t]) - Tentative(s.threads[t])
  {
    if s.threads[t].pc.PickSlot? {
      PickSizeMoves(s, t, s');
    }
  }

  lemma PickSizeMoves(s: State, t: nat, s': State)
    requires Shape(s) && t < |s.threads| && ReserveStep(s, t, s') && s.threads[t].pc.PickSlot?
    ensures s'.size == s.size && SizeShare(s'.threads[t]) == SizeShare(s.threads[t])
    ensures SlotChange(s, t) == Tentative(s'.threads[t]) - Tentative(s.threads[t])
  {
  }

  lemma CommitSizeMoves(s: State, t: nat, s': State)
    requires Shape(s) && t < |s.threads| && CommitStep(s, t, s')
    ensures s'.size - s.size == ClaimChange(s, t) + SizeShare(s'.threads[t]) - SizeShare(s.threads[t])
    ensures SlotChange(s, t) == ClaimChange(s, t) + Tentative(s'.threads[t]) - Tentative(s.threads[t])
  {
  }

  lemma SizeMoves(s: State, t: nat, s': State)
    requires Shape(s) && t < |s.threads| && InnerStep(s, t, s')
    ensures s'.size - s.size == ClaimChange(s, t) + SizeShare(s'.threads[t]) - SizeShare(s.threads[t])
    ensures SlotChange(s, t) == ClaimChange(s, t) + Tentative(s'.threads[t]) - Tentative(s.threads[t])
  {
    if LookupStep(s, t, s') {
      LookupSizeMoves(s, t, s');
    } else if EraseStep(s, t, s') {
      EraseSizeMoves(s, t, s');
    } else if ReserveStep(s, t, s') {
      ReserveSizeMoves(s, t, s');
    } else {
      CommitSizeMoves(s, t, s');
    }
  }

  lemma LookupLimitMoves(s: State, t: nat, s': State)
    requires Shape(s) && t < |s.threads| && LookupStep(s, t, s')
    ensures s'.ml == s.ml && Debt(s'.threads[t]) == Debt(s.threads[t])
  {
  }

  lemma EraseLimitMoves(s: State, t: nat, s': State)
    requires Shape(s) && t < |s.threads| && EraseStep(s, t, s')
    ensures s'.ml <= s.ml
    ensures s'.ml - s.ml == -(if s.threads[t].pc.EraseLoad? then Debt(s'.threads[t]) else 0)
    ensures !s.threads[t].pc.EraseLoad? ==> Debt(s'.threads[t]) <= Debt(s.threads[t])
  {
  }

  lemma ReserveLimitMoves(s: State, t: nat, s': State)
    requires Shape(s) && t < |s.threads| && ReserveStep(s, t, s')
    ensures s'.ml == s.ml && Debt(s'.threads[t]) == Debt(s.threads[t])
  {
  }

  lemma CommitLimitMoves(s: State, t: nat, s': State)
    requires Shape(s) && t < |s.threads| && CommitStep(s, t, s')
    ensures s'.ml == s.ml && Debt(s'.threads[t]) == Debt(s.threads[t])
  {
  }

  lemma LimitMoves(s: State, t: nat, s': State)
    requires Shape(s) && t < |s.threads| && InnerStep(s, t, s')
    ensures s'.ml <= s.ml
    ensures s'.ml - s.ml == -(if s.threads[t].pc.EraseLoad? then Debt(s'.threads[t]) else 0)
    ensures !s.threads[t].pc.EraseLoad? ==> Debt(s'.threads[t]) <= Debt(s.threads[t])
  {
    if LookupStep(s, t, s') {
      LookupLimitMoves(s, t, s');
    } else if EraseStep(s, t, s') {
      EraseLimitMoves(s, t, s');
    } else if ReserveStep(s, t, s') {
      ReserveLimitMoves(s, t, s');
    } else {
      CommitLimitMoves(s, t, s');
    }
  }

  lemma SizeKept(s: State, t: nat, s': State)
    requires Inv(s) && t < |s.threads| && InnerStep(s, t, s') && SizeAccount(s) && SlotAccount(s)
    ensures SizeAccount(s') && SlotAccount(s')
  {
    InnerQuiet(s, t, s');
    ClaimsMove(s, t, s');
    SlotsMove(s, t, s');
    SizeMoves(s, t, s');
    SumUpdate(s.threads, t, s'.threads[t], SizeShare);
    SumUpdate(s.threads, t, s'.threads[t], Tentative);
  }

  lemma LimitKept(s: State, t: nat, s': State)
    requires Inv(s) && t < |s.threads| && InnerStep(s, t, s') && LimitAccount(s)
    ensures LimitAccount(s')
  {
    InnerQuiet(s, t, s');
    LimitMoves(s, t, s');
    SumUpdate(s.threads, t, s'.threads[t], Debt);
  }

  /** A reservation made within the limit fits: the others weigh no more than their
      share of the size. */
  lemma ReservationFits(s: State, t: nat, s': State)
    requires Shape(s) && t < |s.threads| && ReserveStep(s, t, s') && s.threads[t].pc.ReserveSize?
    requires SizeAccount(s) && LoadAccount(s)
    ensures LoadAccount(s')
  {
    var th' := s'.threads[t];
    SumUpdate(s.threads, t, th', WeightAt(s.ml));
    SumLe(s.threads, WeightAt(s.ml), SizeShare);
  }

  lemma LookupWeightMoves(s: State, t: nat, s': State)
    requires Shape(s) && t < |s.threads| && LookupStep(s, t, s') && !s.threads[t].pc.ReserveSize?
    ensures ClaimChange(s, t) + Weight(s'.threads[t], s'.ml) - Weight(s.threads[t], s.ml) <= s'.ml - s.ml
  {
    assert PcShape(s.arr, s.threads[t]);
  }

  lemma EraseWeightMoves(s: State, t: nat, s': State)
    requires Shape(s) && t < |s.threads| && EraseStep(s, t, s') && !s.threads[t].pc.ReserveSize?
    ensures ClaimChange(s, t) + Weight(s'.threads[t], s'.ml) - Weight(s.threads[t], s.ml) <= s'.ml - s.ml
  {
    assert PcShape(s.arr, s.threads[t]);
  }

  lemma ReserveWeightMoves(s: State, t: nat, s': State)
    requires Shape(s) && t < |s.threads| && ReserveStep(s, t, s') && !s.threads[t].pc.ReserveSize?
    ensures ClaimChange(s, t) + Weight(s'.threads[t], s'.ml) - Weight(s.threads[t], s.ml) <= s'.ml - s.ml
  {
    assert PcShape(s.arr, s.threads[t]);
  }

  lemma CommitWeightMoves(s: State, t: nat, s': State)
    requires Shape(s) && t < |s.threads| && CommitStep(s, t, s') && !s.threads[t].pc.ReserveSize?
    ensures ClaimChange(s, t) + Weight(s'.threads[t], s'.ml) - Weight(s.threads[t], s.ml) <= s'.ml - s.ml
  {
    assert PcShape(s.arr, s.threads[t]);
  }

  lemma WeightMoves(s: State, t: nat, s': State)
    requires Shape(s) && t < |s.threads| && InnerStep(s, t, s') && !s.threads[t].pc.ReserveSize?
    ensures ClaimChange(s, t) + Weight(s'.threads[t], s'.ml) - Weight(s.threads[t], s.ml) <= s'.ml - s.ml
  {
    if LookupStep(s, t, s') {
      LookupWeightMoves(s, t, s');
    } else if EraseStep(s, t, s') {
      EraseWeightMoves(s, t, s');
    } else if ReserveStep(s, t, s') {
      ReserveWeightMoves(s, t, s');
    } else {
      CommitWeightMoves(s, t, s');
    }
  }

  lemma LoadKept(s: State, t: nat, s': State)
    requires Inv(s) && t < |s.threads| && InnerStep(s, t, s') && SizeAccount(s) && LoadAccount(s)
    ensures LoadAccount(s')
  {
    InnerQuiet(s, t, s');
    if s.threads[t].pc.ReserveSize? {
      ReservationFits(s, t, s');
    } else {
      ClaimsMove(s, t, s');
      WeightMoves(s, t, s');
      LimitMoves(s, t, s');
      var lowered := s.threads[t := s'.threads[t]];
      SumUpdate(s.threads, t, s'.threads[t], WeightAt(s'.ml));
      SumUpdate(s.threads, t, s'.threads[t], WeightAt(s.ml));
      WeightShrinks(s.threads, t, s.ml, s'.ml);
    }
  }

  /** Lowering the limit can only doom reservations. */
  lemma {:induction false} WeightShrinks(threads: seq<Thread>, t: nat, ml: int, ml': int)
    requires t < |threads| && ml' <= ml
    ensures Sum(threads, WeightAt(ml')) - Weight(threads[t], ml') <= Sum(threads, WeightAt(ml)) - Weight(threads[t], ml)
  {
    var last := |threads| - 1;
    SumLe(threads[..last], WeightAt(ml'), WeightAt(ml));
    if t < last {
      WeightShrinks(threads[..last], t, ml, ml');
    }
  }

  lemma InnerAccounts(s: State, t: nat, s': State)
    requires Inv(s) && t < |s.threads| && InnerStep(s, t, s') && Accounts(s)
    ensures Accounts(s')
  {
    SizeKept(s, t, s');
    LimitKept(s, t, s');
    LoadKept(s, t, s');
  }

  // ----- tables at rest -----

  lemma {:induction false} ClaimsAreHolds(slots: seq<Slot>, claim: seq<Option<Key>>)
    requires |claim| == |slots|
    requires forall x :: 0 <= x < |slots| ==> claim[x] == KeyIn(slots[x])
    ensures Sum(claim, Taken) == Sum(slots, Holds)
  {
    if slots != [] {
      var last := |slots| - 1;
      ClaimsAreHolds(slots[..last], claim[..last]);
    }
  }

  lemma RestingThreads(threads: seq<Thread>, ml: int)
    requires forall t :: 0 <= t < |threads| ==>
      Apart(threads[t].pc)
    ensures Sum(threads, SizeShare) == Sum(threads, WeightAt(ml)) == Sum(threads, Debt) == Sum(threads, Tentative) == 0
  {
    SumConstant(threads, SizeShare, 0);
    SumConstant(threads, WeightAt(ml), 0);
    SumConstant(threads, Debt, 0);
    SumConstant(threads, Tentative, 0);
  }

  lemma AtRestAccounts(s: State)
    requires AtRest(s) && s.size == Sum(s.arr.slots, Holds) <= s.ml <= s.arr.Capacity()
    ensures Accounts(s)
  {
    SettledOccupied(s.arr);
    ClaimsAreHolds(s.arr.slots, s.claim);
    RestingThreads(s.threads, s.ml);
  }

  lemma AloneSettles(s: State, t: nat)
    requires Shape(s) && SlotsOk(s) && t < |s.threads| && AloneOutside(s, t)
    requires s.threads[t].pc.Outside? || s.threads[t].pc.Full?
    ensures forall x :: 0 <= x < |s.claim| ==> SlotSettled(s, x)
  {
    assert forall u :: 0 <= u < |s.threads| ==> Work(s.threads[u]) == None;
    forall x | 0 <= x < |s.claim|
      ensures SlotSettled(s, x)
    {
      assert !InWork(s, x);
    }
  }

  lemma AloneSettled(s: State, t: nat)
    requires Shape(s) && SlotsOk(s) && Accounts(s) && t < |s.threads| && AloneOutside(s, t)
    requires s.threads[t].pc.Outside? || s.threads[t].pc.Full?
    ensures s.size == Sum(s.arr.slots, Holds) == Claims(s) <= s.ml
  {
    AloneSettles(s, t);
    forall x | 0 <= x < |s.claim|
      ensures s.claim[x] == KeyIn(s.arr.slots[x])
    {
      assert SlotSettled(s, x);
    }
    ClaimsAreHolds(s.arr.slots, s.claim);
    RestingThreads(s.threads, s.ml);
  }

  lemma RehashAccounts(s: State, t: nat, s': State)
    requires Inv(s) && Accounts(s) && t < |s.threads| && ExclusiveStep(s, t, s')
    requires s.threads[t].pc.Full? && s.size == s.ml
    ensures Accounts(s')
  {
    RehashAtRest(s, t, s');
    AloneSettled(s, t);
    GrowthMakesRoom(s.size);
    AtRestAccounts(s');
  }

  lemma ClearAccounts(s: State, t: nat, s': State)
    requires Inv(s) && t < |s.threads| && ExclusiveStep(s, t, s')
    requires s.threads[t].pc.Outside? && s'.threads == s.threads && s' != s
    ensures Accounts(s')
  {
    ClearAtRest(s, t, s');
    SumConstant(s'.arr.slots, Holds, 0);
    AtRestAccounts(s');
  }

  /** Entering the container counts for nothing yet. */
  lemma BeginWeighsNothing(s: State, t: nat, s': State)
    requires Shape(s) && t < |s.threads| && ExclusiveStep(s, t, s')
    requires s.threads[t].pc.Full? ==> s.size != s.ml
    requires s.threads[t].pc.Outside? ==> s'.threads != s.threads
    ensures |s'.threads| == |s.threads| && s' == s.(threads := s.threads[t := s'.threads[t]])
    ensures forall th :: th in [s.threads[t], s'.threads[t]] ==>
      SizeShare(th) == Weight(th, s.ml) == Debt(th) == Tentative(th) == 0
  {
  }

  lemma BeginAccounts(s: State, t: nat, s': State)
    requires Inv(s) && Accounts(s) && t < |s.threads| && ExclusiveStep(s, t, s')
    requires s.threads[t].pc.Full? ==> s.size != s.ml
    requires s.threads[t].pc.Outside? ==> s'.threads != s.threads
    ensures Accounts(s')
  {
    BeginWeighsNothing(s, t, s');
    SumUpdate(s.threads, t, s'.threads[t], SizeShare);
    SumUpdate(s.threads, t, s'.threads[t], WeightAt(s.ml));
    SumUpdate(s.threads, t, s'.threads[t], Debt);
    SumUpdate(s.threads, t, s'.threads[t], Tentative);
  }

  /** Every step of every thread keeps the accounts. */
  lemma AccountsKept(s: State, t: nat, s': State)
    requires Inv(s) && Accounts(s) && t < |s.threads| && Step(s, t, s')
    ensures Accounts(s')
  {
    if InnerStep(s, t, s') {
      InnerAccounts(s, t, s');
    } else if s.threads[t].pc.Full? && s.size == s.ml {
      RehashAccounts(s, t, s');
    } else if s.threads[t].pc.Outside? && s'.threads == s.threads {
      if s' != s {
        ClearAccounts(s, t, s');
      }
    } else {
      BeginAccounts(s, t, s');
    }
  }

  // ----- what the accounts mean -----

  lemma WeightsNonNegative(s: State)
    requires Inv(s)
    ensures forall t :: 0 <= t < |s.threads| ==>
      && Weight(s.threads[t], s.ml) >= 0 && Debt(s.threads[t]) >= 0
      && Tentative(s.threads[t]) >= 0 && SizeShare(s.threads[t]) >= 0
  {
    forall t | 0 <= t < |s.threads|
      ensures Weight(s.threads[t], s.ml) >= 0 && Debt(s.threads[t]) >= 0
    {
      assert PcShape(s.arr, s.threads[t]);
    }
  }

  /** The load limit never falls below zero, however many erasures lower it. */
  lemma LimitNeverUnderflows(s: State)
    requires Inv(s) && Accounts(s)
    ensures 0 <= Claims(s) <= s.ml <= s.arr.Capacity()
    ensures forall t :: 0 <= t < |s.threads| && s.threads[t].pc.EraseLoad? ==> s.ml >= 1
    ensures s.size >= 0
  {
    WeightsNonNegative(s);
    SumNonNegative(s.threads, WeightAt(s.ml));
    SumNonNegative(s.threads, SizeShare);
    SumNonNegative(s.threads, Debt);
    SumNonNegative(s.claim, Taken);
    forall t | 0 <= t < |s.threads| && s.threads[t].pc.EraseLoad?
      ensures s.ml >= 1
    {
      assert WeightAt(s.ml)(s.threads[t]) == 1;
    }
  }

  predicate HasReservation(th: Thread) {
    th.pc.AcquireSlot? || th.pc.PickSlot? || th.pc.Overflowed?
  }

  lemma {:induction false} SpareSlot(slots: seq<Slot>)
    requires Sum(slots, Occupies) < |slots|
    ensures exists x :: 0 <= x < |slots| && slots[x].meta == AVAILABLE
  {
    if forall x :: 0 <= x < |slots| ==> slots[x].meta != AVAILABLE {
      SumConstant(slots, Occupies, 1);
    }
  }

  function Demand(th: Thread, ml: int): int { Weight(th, ml) + Debt(th) }

  function DemandAt(ml: int): Thread -> int { th => Demand(th, ml) }

  /** While some insertion holds a reservation and no slot yet, some slot is free. */
  lemma ReservationHasRoom(s: State, t: nat)
    requires Inv(s) && Accounts(s) && t < |s.threads| && HasReservation(s.threads[t])
    ensures exists x :: 0 <= x < |s.arr.slots| && s.arr.slots[x].meta == AVAILABLE
  {
    forall u | 0 <= u < |s.threads|
      ensures Tentative(s.threads[u]) <= Demand(s.threads[u], s.ml)
    {
      assert PcShape(s.arr, s.threads[u]);
    }
    assert Tentative(s.threads[t]) < DemandAt(s.ml)(s.threads[t]);
    SumLt(s.threads, t, Tentative, DemandAt(s.ml));
    SumAdd(s.threads, WeightAt(s.ml), Debt, DemandAt(s.ml));
    DummyHasNoRoom(s, t);
    SpareSlot(s.arr.slots);
  }

  lemma DummyHasNoRoom(s: State, t: nat)
    requires Inv(s) && Accounts(s) && t < |s.threads| && HasReservation(s.threads[t])
    ensures !s.arr.dummy
  {
    LimitNeverUnderflows(s);
    WeightsNonNegative(s);
    SumNonNegative(s.threads, WeightAt(s.ml));
    assert WeightAt(s.ml)(s.threads[t]) == 1;
  }
}
