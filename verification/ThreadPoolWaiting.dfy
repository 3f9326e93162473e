/** Wakeups of the threads inside the pool's `wait`: when the single `waiting` flag and
    the notification at the end of a task suffice, and exactly when they do not. */
module ThreadPoolWaiting {
  import opened ThreadPool

  predicate InWait(pc: Pc) { pc.CWaitTest? || pc.CWaitSleep? || pc.CWaitWoken? }

  predicate OtherWaits(threads: seq<Pc>, t: nat) {
    exists u :: 0 <= u < |threads| && u != t && InWait(threads[u])
  }

  /** Whoever waits is announced by the flag, and whoever sleeps although its condition
      holds is about to be notified. */
  predicate Guarded(s: State) {
    && (forall t :: 0 <= t < |s.threads| && InWait(s.threads[t]) ==> s.waiting)
    && (SomeoneAt(s.threads, CWaitSleep) && Done(s) ==> SomeoneAt(s.threads, WNotify))
  }

  /** Some waiter sleeps although its condition holds, and no worker is about to report. */
  predicate Unserved(s: State) {
    SomeoneAt(s.threads, CWaitSleep) && Done(s) && !SomeoneAt(s.threads, WNotify)
  }

  /** The steps that can strand a waiter: pausing or purging while a waiter sleeps and
      tasks_running is zero, and returning from `wait` while another thread waits. */
  predicate Hazard(s: State, t: nat, a: Action)
    requires t < |s.threads|
  {
    || (s.threads[t].CIdle? && (a.Pause? || a.Purge?) && s.running == 0 && SomeoneAt(s.threads, CWaitSleep))
    || (s.threads[t].CWaitTest? && Done(s) && OtherWaits(s.threads, t))
  }

  predicate Simple(s: State, t: nat, s': State)
    requires t < |s.threads|
  {
    |s'.threads| == |s.threads| && forall u :: 0 <= u < |s.threads| && u != t ==> s'.threads[u] == s.threads[u]
  }

  lemma NotifyGuards(s: State, prioritized: bool, t: nat, s': State)
    requires Guarded(s) && t < |s.threads| && WorkerStep(s, prioritized, t, s') && s.threads[t].WNotify?
    ensures Guarded(s')
  {
    if s.waiting && Done(s) {
      assert forall u :: 0 <= u < |s.threads| && InWait(s'.threads[u]) ==> InWait(s.threads[u]);
      assert !SomeoneAt(s'.threads, CWaitSleep);
    } else {
      assert Simple(s, t, s');
      assert SomeoneAt(s'.threads, CWaitSleep) ==> SomeoneAt(s.threads, CWaitSleep);
    }
  }

  lemma StillNotifying(s: State, t: nat, s': State)
    requires t < |s.threads| && Simple(s, t, s') && !s.threads[t].WNotify? && SomeoneAt(s.threads, WNotify)
    ensures SomeoneAt(s'.threads, WNotify)
  {
    var u :| 0 <= u < |s.threads| && s.threads[u] == WNotify;
    assert s'.threads[u] == WNotify;
  }

  lemma StillSleeping(s: State, t: nat, s': State)
    requires t < |s.threads| && Simple(s, t, s') && !s'.threads[t].CWaitSleep? && SomeoneAt(s'.threads, CWaitSleep)
    ensures SomeoneAt(s.threads, CWaitSleep)
  {
    var u :| 0 <= u < |s'.threads| && s'.threads[u] == CWaitSleep;
    assert s.threads[u] == CWaitSleep;
  }

  /** Nothing that matters to a waiter has changed. */
  predicate SameForWaiters(s: State, s': State) {
    && s'.running == s.running && s'.queue == s.queue && s'.paused == s.paused && s'.waiting == s.waiting
    && |s'.threads| == |s.threads|
    && forall u :: 0 <= u < |s.threads| && s'.threads[u] != s.threads[u] ==>
         Uninvolved(s.threads[u]) && Uninvolved(s'.threads[u])
  }

  predicate Uninvolved(pc: Pc) { !InWait(pc) && !pc.WNotify? }

  lemma SameSomeone(s: State, s': State, pc: Pc)
    requires SameForWaiters(s, s') && !Uninvolved(pc)
    ensures SomeoneAt(s'.threads, pc) <==> SomeoneAt(s.threads, pc)
  {
    if u :| 0 <= u < |s.threads| && s.threads[u] == pc {
      assert s'.threads[u] == pc;
    }
    if u :| 0 <= u < |s'.threads| && s'.threads[u] == pc {
      assert s.threads[u] == pc;
    }
  }

  lemma SameGuards(s: State, s': State)
    requires SameForWaiters(s, s')
    ensures Guarded(s) ==> Guarded(s')
    ensures Unserved(s') <==> Unserved(s)
  {
    SameSomeone(s, s', CWaitSleep);
    SameSomeone(s, s', WNotify);
  }

  /** Worker steps other than lowering the counter, reporting and popping. */
  lemma PlainWorkerSame(s: State, prioritized: bool, t: nat, s': State)
    requires t < |s.threads| && WorkerStep(s, prioritized, t, s')
    requires !s.threads[t].WDec? && !s.threads[t].WNotify? && !s.threads[t].WPop?
    ensures SameForWaiters(s, s')
  {
  }

  lemma PopIsNotDone(s: State, prioritized: bool, t: nat, s': State)
    requires RunningOk(s) && t < |s.threads| && WorkerStep(s, prioritized, t, s') && s.threads[t].WPop?
    ensures Simple(s, t, s') && !InWait(s'.threads[t]) && s'.waiting == s.waiting && !Done(s')
  {
    RunningPositive(s);
  }

  lemma WorkerGuards(s: State, prioritized: bool, t: nat, s': State)
    requires Guarded(s) && RunningOk(s) && t < |s.threads|
    requires WorkerStep(s, prioritized, t, s') && !s.threads[t].WNotify?
    ensures Guarded(s')
  {
    if s.threads[t].WDec? {
      assert Simple(s, t, s') && s'.threads[t] == WNotify;
    } else if s.threads[t].WPop? {
      PopIsNotDone(s, prioritized, t, s');
    } else {
      PlainWorkerSame(s, prioritized, t, s');
      SameGuards(s, s');
    }
  }

  lemma RunningPositive(s: State)
    requires RunningOk(s)
    ensures s.running >= 0
  {
    Counting.SumNonNegative(s.threads, Busy);
  }

  lemma WakeOneSame(s: State, u: nat, t: nat)
    requires t < |s.threads| && u < |s.threads| && s.threads[t].CNotifyOne? && s.threads[u].WSleep?
    ensures SameForWaiters(s, Move(Move(s, u, WWoken), t, CIdle))
  {
  }

  lemma NotifyOneSame(s: State, t: nat, a: Action, s': State)
    requires t < |s.threads| && ClientStep(s, t, a, s') && s.threads[t].CNotifyOne?
    ensures SameForWaiters(s, s')
  {
    if exists u :: 0 <= u < |s.threads| && s.threads[u].WSleep? {
      var u :| 0 <= u < |s.threads| && s.threads[u].WSleep? && s' == Move(Move(s, u, WWoken), t, CIdle);
      WakeOneSame(s, u, t);
    }
  }

  lemma NotifierSame(s: State, t: nat, a: Action, s': State)
    requires t < |s.threads| && ClientStep(s, t, a, s')
    requires s.threads[t].CNotifyOne? || s.threads[t].CNotifyAll?
    ensures SameForWaiters(s, s')
  {
    if s.threads[t].CNotifyOne? {
      NotifyOneSame(s, t, a, s');
    }
  }

  lemma FreeMutexNotNotifying(s: State)
    requires MutexFree(s)
    ensures !SomeoneAt(s.threads, WNotify)
  {
  }

  lemma PauseGuards(s: State, t: nat, a: Action, s': State)
    requires Guarded(s) && t < |s.threads| && ClientStep(s, t, a, s')
    requires s.threads[t].CIdle? && (a.Pause? || a.Purge?)
    ensures Guarded(s') <==> !Hazard(s, t, a)
  {
    FreeMutexNotNotifying(s);
  }

  lemma ReturnGuards(s: State, t: nat, a: Action, s': State)
    requires Guarded(s) && t < |s.threads| && ClientStep(s, t, a, s') && s.threads[t].CWaitTest?
    ensures Guarded(s') <==> !Hazard(s, t, a)
  {
    assert Simple(s, t, s');
    if Hazard(s, t, a) {
      var u :| 0 <= u < |s.threads| && u != t && InWait(s.threads[u]);
      assert InWait(s'.threads[u]) && !s'.waiting;
    }
  }

  lemma ClientGuards(s: State, t: nat, a: Action, s': State)
    requires Guarded(s) && t < |s.threads| && ClientStep(s, t, a, s')
    requires !s.threads[t].CWaitTest? && !(s.threads[t].CIdle? && (a.Pause? || a.Purge?))
    requires !s.threads[t].CNotifyOne? && !s.threads[t].CNotifyAll?
    ensures Guarded(s')
  {
    assert Simple(s, t, s');
    if SomeoneAt(s.threads, WNotify) {
      StillNotifying(s, t, s');
    }
    if SomeoneAt(s'.threads, CWaitSleep) {
      StillSleeping(s, t, s');
    }
  }

  /** Exactly the hazards break the guarantee. */
  lemma GuardBreaksAtHazardsOnly(s: State, prioritized: bool, t: nat, a: Action, s': State)
    requires Inv(s) && Guarded(s) && Step(s, prioritized, t, a, s')
    ensures Guarded(s') <==> !Hazard(s, t, a)
  {
    if s.threads[t].WNotify? {
      NotifyGuards(s, prioritized, t, s');
    } else if WorkerStep(s, prioritized, t, s') {
      WorkerGuards(s, prioritized, t, s');
    } else if s.threads[t].CNotifyOne? || s.threads[t].CNotifyAll? {
      NotifierSame(s, t, a, s');
      SameGuards(s, s');
    } else if s.threads[t].CIdle? && (a.Pause? || a.Purge?) {
      PauseGuards(s, t, a, s');
    } else if s.threads[t].CWaitTest? {
      ReturnGuards(s, t, a, s');
    } else {
      ClientGuards(s, t, a, s');
    }
  }

  // ----- exactly when a sleeper is left alone -----

  /** The steps that leave a sleeper behind: pausing or purging when no task is running,
      and a worker's silence because another waiter has lowered the flag. */
  predicate Strands(s: State, t: nat, a: Action)
    requires t < |s.threads|
  {
    && SomeoneAt(s.threads, CWaitSleep)
    && ((s.threads[t].CIdle? && (a.Pause? || a.Purge?) && s.running == 0)
        || (s.threads[t].WNotify? && !s.waiting && Done(s)))
  }

  lemma TwoHolders(threads: seq<Pc>, t: nat, u: nat)
    requires t < |threads| && u < |threads| && t != u && HoldsMutex(threads[t]) && HoldsMutex(threads[u])
    ensures Counting.Sum(threads, Mutex) >= 2
  {
    var without := threads[t := CIdle];
    Counting.SumUpdate(threads, t, CIdle, Mutex);
    Counting.SumNonNegative(without, Mutex);
    assert Mutex(without[u]) == 1;
  }

  lemma ReportIsUnique(s: State, t: nat, u: nat)
    requires MutexOk(s) && t < |s.threads| && u < |s.threads| && s.threads[t].WNotify? && s.threads[u].WNotify?
    ensures t == u
  {
    if t != u {
      TwoHolders(s.threads, t, u);
    }
  }

  lemma ReportStrands(s: State, prioritized: bool, t: nat, a: Action, s': State)
    requires Inv(s) && t < |s.threads| && WorkerStep(s, prioritized, t, s') && s.threads[t].WNotify?
    ensures Unserved(s') <==> Strands(s, t, a)
  {
    if s.waiting && Done(s) {
      assert !SomeoneAt(s'.threads, CWaitSleep);
    } else {
      forall u | 0 <= u < |s'.threads|
        ensures s'.threads[u] != WNotify
      {
        if s.threads[u].WNotify? {
          ReportIsUnique(s, t, u);
        }
      }
      if u :| 0 <= u < |s.threads| && s.threads[u] == CWaitSleep {
        assert s'.threads[u] == CWaitSleep;
      }
      if u :| 0 <= u < |s'.threads| && s'.threads[u] == CWaitSleep {
        assert s.threads[u] == CWaitSleep;
      }
    }
  }

  lemma WorkerServes(s: State, prioritized: bool, t: nat, s': State)
    requires Inv(s) && t < |s.threads| && WorkerStep(s, prioritized, t, s') && !s.threads[t].WNotify?
    requires !Unserved(s)
    ensures !Unserved(s')
  {
    if s.threads[t].WDec? {
      assert Simple(s, t, s') && s'.threads[t] == WNotify;
    } else if s.threads[t].WPop? {
      PopIsNotDone(s, prioritized, t, s');
    } else {
      PlainWorkerSame(s, prioritized, t, s');
      SameGuards(s, s');
    }
  }

  lemma PauseStrands(s: State, t: nat, a: Action, s': State)
    requires t < |s.threads| && ClientStep(s, t, a, s') && s.threads[t].CIdle? && (a.Pause? || a.Purge?)
    ensures Unserved(s') <==> Strands(s, t, a)
  {
    FreeMutexNotNotifying(s);
  }

  lemma ClientServes(s: State, t: nat, a: Action, s': State)
    requires t < |s.threads| && ClientStep(s, t, a, s') && !Unserved(s)
    requires !(s.threads[t].CIdle? && (a.Pause? || a.Purge?))
    requires !s.threads[t].CNotifyOne? && !s.threads[t].CNotifyAll?
    ensures !Unserved(s')
  {
    assert Simple(s, t, s');
    if SomeoneAt(s.threads, WNotify) {
      StillNotifying(s, t, s');
    }
    if SomeoneAt(s'.threads, CWaitSleep) && !s'.threads[t].CWaitSleep? {
      StillSleeping(s, t, s');
    }
  }

  /** These steps and no others, whatever the number of waiters. */
  lemma StrandsExactly(s: State, prioritized: bool, t: nat, a: Action, s': State)
    requires Inv(s) && Step(s, prioritized, t, a, s') && !Unserved(s)
    ensures Unserved(s') <==> Strands(s, t, a)
  {
    if s.threads[t].WNotify? {
      ReportStrands(s, prioritized, t, a, s');
    } else if WorkerStep(s, prioritized, t, s') {
      WorkerServes(s, prioritized, t, s');
    } else if s.threads[t].CIdle? && (a.Pause? || a.Purge?) {
      PauseStrands(s, t, a, s');
    } else if s.threads[t].CNotifyOne? || s.threads[t].CNotifyAll? {
      NotifierSame(s, t, a, s');
      SameGuards(s, s');
    } else {
      ClientServes(s, t, a, s');
    }
  }

  // ----- runs with their events -----

  datatype Event = Event(t: nat, a: Action)

  ghost predicate EventAt(run: seq<State>, events: seq<Event>, prioritized: bool, i: nat)
    requires i < |events| && |run| == |events| + 1
  {
    Step(run[i], prioritized, events[i].t, events[i].a, run[i + 1])
  }

  ghost predicate IsTrace(run: seq<State>, events: seq<Event>, prioritized: bool) {
    && |run| == |events| + 1 && Initial(run[0])
    && forall i :: 0 <= i < |events| ==> EventAt(run, events, prioritized, i)
  }

  lemma {:induction false} TraceKeeps(run: seq<State>, events: seq<Event>, prioritized: bool, i: nat)
    requires IsTrace(run, events, prioritized) && i < |run|
    ensures Inv(run[i])
  {
    if i == 0 {
      InitialInv(run[0]);
    } else {
      TraceKeeps(run, events, prioritized, i - 1);
      assert EventAt(run, events, prioritized, i - 1);
      StepKeeps(run[i - 1], prioritized, events[i - 1].t, events[i - 1].a, run[i]);
    }
  }

  predicate StrandsAt(run: seq<State>, events: seq<Event>, j: nat)
    requires |run| == |events| + 1 && j < |events|
  {
    events[j].t < |run[j].threads| && Strands(run[j], events[j].t, events[j].a)
  }

  lemma StrandsAtExactly(run: seq<State>, events: seq<Event>, prioritized: bool, j: nat)
    requires IsTrace(run, events, prioritized) && j < |events| && !Unserved(run[j])
    ensures Unserved(run[j + 1]) <==> StrandsAt(run, events, j)
  {
    TraceKeeps(run, events, prioritized, j);
    assert EventAt(run, events, prioritized, j);
    StrandsExactly(run[j], prioritized, events[j].t, events[j].a, run[j + 1]);
  }

  /** In any run, with any number of waiters, a sleeper that is left alone with its
      condition true was stranded at one of these steps, and has been alone since. */
  lemma {:induction false} UnservedWasStranded(run: seq<State>, events: seq<Event>, prioritized: bool, i: nat)
    returns (j: nat)
    requires IsTrace(run, events, prioritized) && i < |run| && Unserved(run[i])
    ensures j < i && StrandsAt(run, events, j) && !Unserved(run[j])
    ensures forall m :: j < m <= i ==> Unserved(run[m])
  {
    if i == 0 {
      assert false;
    } else if Unserved(run[i - 1]) {
      j := UnservedWasStranded(run, events, prioritized, i - 1);
    } else {
      j := i - 1;
      StrandsAtExactly(run, events, prioritized, j);
    }
  }

  predicate HazardAt(run: seq<State>, events: seq<Event>, i: nat)
    requires |run| == |events| + 1 && i < |events|
  {
    events[i].t < |run[i].threads| && Hazard(run[i], events[i].t, events[i].a)
  }

  lemma CalmEventGuards(run: seq<State>, events: seq<Event>, prioritized: bool, i: nat)
    requires IsTrace(run, events, prioritized) && i < |events|
    requires Guarded(run[i]) && !HazardAt(run, events, i)
    ensures Guarded(run[i + 1])
  {
    TraceKeeps(run, events, prioritized, i);
    assert EventAt(run, events, prioritized, i);
    GuardBreaksAtHazardsOnly(run[i], prioritized, events[i].t, events[i].a, run[i + 1]);
  }

  predicate NobodyElseWaits(s: State, t: nat) {
    forall u :: 0 <= u < |s.threads| && u != t ==> !InWait(s.threads[u])
  }

  /** At event k thread t calls `wait`, and nobody is in it. */
  predicate BeginsSoleWait(run: seq<State>, events: seq<Event>, k: nat, t: nat)
    requires |run| == |events| + 1 && k < |events|
  {
    && events[k] == Event(t, Wait) && t < |run[k].threads| && run[k].threads[t].CIdle?
    && NobodyElseWaits(run[k], t)
  }

  predicate PausesOrPurges(run: seq<State>, events: seq<Event>, j: nat)
    requires |run| == |events| + 1 && j < |events|
  {
    && events[j].t < |run[j].threads| && run[j].threads[events[j].t].CIdle?
    && (events[j].a.Pause? || events[j].a.Purge?)
  }

  lemma CallingWaitGuards(run: seq<State>, events: seq<Event>, prioritized: bool, k: nat, t: nat)
    requires IsTrace(run, events, prioritized) && k < |events| && BeginsSoleWait(run, events, k, t)
    ensures Guarded(run[k + 1])
  {
    assert EventAt(run, events, prioritized, k);
    assert run[k + 1] == Move(run[k], t, CWaitTest).(waiting := true);
  }

  lemma {:induction false} GuardedSinceCall(
      run: seq<State>, events: seq<Event>, prioritized: bool, k: nat, t: nat, i: nat)
    requires IsTrace(run, events, prioritized) && k < i < |run| && BeginsSoleWait(run, events, k, t)
    requires forall j :: k < j < i ==> NobodyElseWaits(run[j], t) && !PausesOrPurges(run, events, j)
    ensures Guarded(run[i])
    decreases i
  {
    if i == k + 1 {
      CallingWaitGuards(run, events, prioritized, k, t);
    } else {
      GuardedSinceCall(run, events, prioritized, k, t, i - 1);
      assert NobodyElseWaits(run[i - 1], t) && !PausesOrPurges(run, events, i - 1);
      assert !HazardAt(run, events, i - 1);
      CalmEventGuards(run, events, prioritized, i - 1);
    }
  }

  /** From the call of `wait` on, as long as nobody else waits and nobody pauses or
      purges, the waiter never sleeps un-notified with the mutex free while its condition
      is true, whatever happened before the call. */
  lemma SoleWaiterLosesNoWakeup(
      run: seq<State>, events: seq<Event>, prioritized: bool, k: nat, t: nat, i: nat)
    requires IsTrace(run, events, prioritized) && k < i < |run| && BeginsSoleWait(run, events, k, t)
    requires forall j :: k < j < i ==> NobodyElseWaits(run[j], t) && !PausesOrPurges(run, events, j)
    requires MutexFree(run[i]) && SomeoneAt(run[i].threads, CWaitSleep)
    ensures !Done(run[i])
  {
    GuardedSinceCall(run, events, prioritized, k, t, i);
    FreeMutexNotNotifying(run[i]);
  }

  // ----- the hazards are reachable -----

  /** A run that ends in state s. */
  ghost predicate Reaches(run: seq<State>, s: State) {
    IsRun(run, false) && run[|run| - 1] == s
  }

  lemma RunExtends(run: seq<State>, s: State)
    requires IsRun(run, false) && Next(run[|run| - 1], false, s)
    ensures IsRun(run + [s], false)
  {
    forall i | 0 <= i < |run|
      ensures StepAt(run + [s], false, i)
    {
      if i < |run| - 1 {
        assert StepAt(run, false, i);
      }
    }
  }

  lemma WorkerMoves(run: seq<State>, s: State, t: nat, s': State) returns (r: seq<State>)
    requires Reaches(run, s) && t < |s.threads| && WorkerStep(s, false, t, s')
    ensures Reaches(r, s')
  {
    assert Step(s, false, t, Go, s');
    RunExtends(run, s');
    r := run + [s'];
  }

  lemma ClientMoves(run: seq<State>, s: State, t: nat, a: Action, s': State) returns (r: seq<State>)
    requires Reaches(run, s) && t < |s.threads| && ClientStep(s, t, a, s')
    ensures Reaches(r, s')
  {
    assert Step(s, false, t, a, s');
    RunExtends(run, s');
    r := run + [s'];
  }

  /** Some waiter sleeps although its condition is true, and every other thread is idle
      or asleep: nobody is going to wake it. */
  predicate Stranded(s: State) {
    && Done(s) && SomeoneAt(s.threads, CWaitSleep)
    && forall t :: 0 <= t < |s.threads| ==> s.threads[t].WSleep? || s.threads[t].CIdle? || s.threads[t].CWaitSleep?
  }

  /** One worker that has gone to sleep and two idle clients. */
  function Resting(): State {
    State([], 0, false, false, [WSleep, CIdle, CIdle], 0, multiset{}, {}, {})
  }

  lemma RestingStarts(s: State)
    requires s.threads == [WInit, CIdle, CIdle] && s == Resting().(running := 1, threads := s.threads)
    ensures Initial(s)
  {
    var idle := [CIdle, CIdle, CIdle];
    Counting.SumConstant(idle, Busy, 0);
    Counting.SumUpdate(idle, 0, WInit, Busy);
    assert s.threads == idle[0 := WInit];
  }

  lemma ReachResting() returns (r: seq<State>)
    ensures Reaches(r, Resting())
  {
    var s := Resting();
    var s0 := s.(running := 1, threads := [WInit, CIdle, CIdle]);
    RestingStarts(s0);
    r := [s0];
    var s1 := s0.(threads := [WEnter, CIdle, CIdle]);
    r := WorkerMoves(r, s0, 0, s1);
    var s2 := s0.(threads := [WDec, CIdle, CIdle]);
    r := WorkerMoves(r, s1, 0, s2);
    var s3 := s.(threads := [WNotify, CIdle, CIdle]);
    r := WorkerMoves(r, s2, 0, s3);
    var s4 := s.(threads := [WTest, CIdle, CIdle]);
    r := WorkerMoves(r, s3, 0, s4);
    r := WorkerMoves(r, s4, 0, s);
  }

  /** A task is queued, the worker notified but not yet running, and a client waits. */
  function Waiting(): State {
    State([Task(0, 0)], 0, false, true, [WWoken, CWaitSleep, CIdle], 1, multiset{}, {}, {})
  }

  /** From there, one client submits a task and another begins to wait. */
  lemma ReachNotified() returns (r: seq<State>)
    ensures Reaches(r, Waiting().(threads := [WWoken, CIdle, CIdle], waiting := false))
  {
    r := ReachResting();
    var s1 := Waiting().(threads := [WSleep, CIdle, CNotifyOne], waiting := false);
    r := ClientMoves(r, Resting(), 2, Detach(0), s1);
    var s2 := Waiting().(threads := [WWoken, CIdle, CIdle], waiting := false);
    assert s2 == Move(Move(s1, 0, WWoken), 2, CIdle) && s1.threads[0].WSleep?;
    r := ClientMoves(r, s1, 2, Go, s2);
  }

  lemma ReachWaiting() returns (r: seq<State>)
    ensures Reaches(r, Waiting())
  {
    r := ReachNotified();
    var s2 := Waiting().(threads := [WWoken, CIdle, CIdle], waiting := false);
    var s3 := Waiting().(threads := [WWoken, CWaitTest, CIdle]);
    r := ClientMoves(r, s2, 1, Wait, s3);
    r := ClientMoves(r, s3, 1, Go, Waiting());
  }

  /** A woken worker that may not take a task goes back to sleep without a word. */
  lemma WorkerReturnsToSleep(r: seq<State>, s: State) returns (r': seq<State>, s': State)
    requires Reaches(r, s) && s.threads == [WWoken, CWaitSleep, CIdle] && (s.paused || s.queue == [])
    ensures Reaches(r', s') && s' == s.(threads := [WSleep, CWaitSleep, CIdle])
  {
    var s1 := s.(threads := [WTest, CWaitSleep, CIdle]);
    r' := WorkerMoves(r, s, 0, s1);
    s' := s.(threads := [WSleep, CWaitSleep, CIdle]);
    r' := WorkerMoves(r', s1, 0, s');
  }

  /** Purging a queue whose task a woken worker has not popped yet strands a waiter: no
      task will run, so nobody reports completion. */
  lemma PurgeCanStrandWaiter() returns (r: seq<State>, s: State)
    ensures Reaches(r, s) && Stranded(s)
  {
    r := ReachWaiting();
    var w := Waiting();
    var s1 := w.(queue := [], purged := {0});
    assert w.queue[0].id in Ids(w.queue) && Ids(w.queue) == {0};
    r := ClientMoves(r, w, 2, Purge, s1);
    r, s := WorkerReturnsToSleep(r, s1);
    assert s.threads[1] == CWaitSleep;
  }

  /** So does pausing. */
  lemma PauseCanStrandWaiter() returns (r: seq<State>, s: State)
    ensures Reaches(r, s) && Stranded(s)
  {
    r := ReachWaiting();
    var w := Waiting();
    var s1 := w.(paused := true);
    r := ClientMoves(r, w, 2, Pause, s1);
    r, s := WorkerReturnsToSleep(r, s1);
    assert s.threads[1] == CWaitSleep;
  }

  /** The worker runs the only task in the queue up to its report. */
  lemma TaskRuns(r: seq<State>, s: State, id: nat) returns (r': seq<State>, s': State)
    requires Reaches(r, s) && |s.threads| == 3 && s.threads[0] == WWoken && MutexFree(s)
    requires s.queue == [Task(id, 0)] && !s.paused && s.running == 0
    ensures s' == s.(queue := [], threads := s.threads[0 := WNotify], started := s.started + multiset{id},
                     finished := s.finished + {id})
    ensures Reaches(r', s')
  {
    var s1 := Move(s, 0, WTest);
    r' := WorkerMoves(r, s, 0, s1);
    var s2 := Move(s1, 0, WPop);
    r' := WorkerMoves(r', s1, 0, s2);
    var s3 := Move(s2, 0, WRun(id)).(queue := [], running := 1, started := s.started + multiset{id});
    assert s2.queue[..0] + s2.queue[1..] == [] && s2.queue[0] == Task(id, 0);
    r' := WorkerMoves(r', s2, 0, s3);
    r', s' := TaskReports(r', s3, id);
  }

  lemma TaskReports(r: seq<State>, s: State, id: nat) returns (r': seq<State>, s': State)
    requires Reaches(r, s) && |s.threads| == 3 && s.threads[0] == WRun(id) && MutexFree(s) && s.running == 1
    ensures s' == s.(running := 0, threads := s.threads[0 := WNotify], finished := s.finished + {id})
    ensures Reaches(r', s')
  {
    var s1 := Move(s, 0, WEnter).(finished := s.finished + {id});
    r' := WorkerMoves(r, s, 0, s1);
    var s2 := Move(s1, 0, WDec);
    r' := WorkerMoves(r', s1, 0, s2);
    s' := Move(s2, 0, WNotify).(running := 0);
    r' := WorkerMoves(r', s2, 0, s');
    assert s'.threads == s.threads[0 := WNotify];
  }

  /** Two threads wait; the task finishes and wakes both; the first returns and clears
      the flag; before the second looks, a new task arrives. */
  lemma SecondWaiterUnannounced() returns (r: seq<State>, s: State)
    ensures Reaches(r, s)
    ensures s == State([Task(1, 0)], 0, false, false, [WWoken, CIdle, CWaitSleep], 2, multiset{0}, {0}, {})
  {
    r := ReachWaiting();
    var w := Waiting();
    var s1 := w.(threads := [WWoken, CWaitSleep, CWaitTest]);
    r := ClientMoves(r, w, 2, Wait, s1);
    var s2 := w.(threads := [WWoken, CWaitSleep, CWaitSleep]);
    r := ClientMoves(r, s1, 2, Go, s2);
    var s3;
    r, s3 := BothWoken(r, s2);
    r, s := FirstWaiterReturns(r, s3);
  }

  lemma BothWoken(r: seq<State>, s: State) returns (r': seq<State>, s': State)
    requires Reaches(r, s) && s == Waiting().(threads := [WWoken, CWaitSleep, CWaitSleep])
    ensures s' == State([], 0, false, true, [WSleep, CWaitWoken, CWaitWoken], 1, multiset{0}, {0}, {})
    ensures Reaches(r', s')
  {
    var s3;
    r', s3 := TaskRuns(r, s, 0);
    var s4 := s3.(threads := [WTest, CWaitWoken, CWaitWoken]);
    r' := WorkerMoves(r', s3, 0, s4);
    s' := s3.(threads := [WSleep, CWaitWoken, CWaitWoken]);
    r' := WorkerMoves(r', s4, 0, s');
  }

  lemma FirstWaiterReturns(r: seq<State>, s: State) returns (r': seq<State>, s': State)
    requires Reaches(r, s)
    requires s == State([], 0, false, true, [WSleep, CWaitWoken, CWaitWoken], 1, multiset{0}, {0}, {})
    ensures s' == State([Task(1, 0)], 0, false, false, [WWoken, CIdle, CWaitSleep], 2, multiset{0}, {0}, {})
    ensures Reaches(r', s')
  {
    var s1 := s.(threads := [WSleep, CWaitTest, CWaitWoken]);
    r' := ClientMoves(r, s, 1, Go, s1);
    var s2 := s.(threads := [WSleep, CIdle, CWaitWoken], waiting := false);
    r' := ClientMoves(r', s1, 1, Go, s2);
    var s3 := s2.(threads := [WSleep, CNotifyOne, CWaitWoken], queue := [Task(1, 0)], submitted := 2);
    r' := ClientMoves(r', s2, 1, Detach(0), s3);
    r', s' := SecondWaiterRechecks(r', s3);
  }

  lemma SecondWaiterRechecks(r: seq<State>, s: State) returns (r': seq<State>, s': State)
    requires Reaches(r, s) && s.threads == [WSleep, CNotifyOne, CWaitWoken] && s.queue != [] && !s.paused
    ensures s' == s.(threads := [WWoken, CIdle, CWaitSleep])
    ensures Reaches(r', s')
  {
    var s1 := s.(threads := [WWoken, CIdle, CWaitWoken]);
    assert s1 == Move(Move(s, 0, WWoken), 1, CIdle) && s.threads[0].WSleep?;
    r' := ClientMoves(r, s, 1, Go, s1);
    var s2 := s.(threads := [WWoken, CIdle, CWaitTest]);
    r' := ClientMoves(r', s1, 2, Go, s2);
    s' := s.(threads := [WWoken, CIdle, CWaitSleep]);
    r' := ClientMoves(r', s2, 2, Go, s');
  }

  /** So a second waiter can be stranded without any pause or purge. */
  lemma TwoWaitersCanStrand() returns (r: seq<State>, s: State)
    ensures Reaches(r, s) && Stranded(s) && s.purged == {} && !s.paused
  {
    var s0, s1;
    r, s0 := SecondWaiterUnannounced();
    r, s1 := TaskRuns(r, s0, 1);
    var s2 := Move(s1, 0, WTest);
    r := WorkerMoves(r, s1, 0, s2);
    s := Move(s2, 0, WSleep);
    r := WorkerMoves(r, s2, 0, s);
    assert s.threads == [WSleep, CIdle, CWaitSleep];
    assert s.threads[2] == CWaitSleep;
  }
}
