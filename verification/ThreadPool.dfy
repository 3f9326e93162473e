/** The thread pool as a step machine: workers and clients share a mutex, a task queue,
    two condition variables and three flags. A critical section of a client is one
    step; a worker's is several, with the mutex held in between. */
module ThreadPool {
  import opened Counting

  datatype Task = Task(id: nat, priority: int)

  /** Where a thread is; W for workers, C for clients. */
  datatype Pc =
    | WInit               // in the initialization function
    | WRun(id: nat)       // executing a task
    | WEnter              // about to lock the mutex
    | WDec                // holds the mutex; about to lower tasks_running
    | WNotify             // holds the mutex; about to notify waiters if all is done
    | WTest               // holds the mutex; about to test for an available task
    | WPop                // holds the mutex; found one
    | WSleep              // in task_available_cv, not notified
    | WWoken              // notified, about to lock the mutex again
    | CIdle
    | CNotifyOne          // task pushed, notify_one outstanding
    | CNotifyAll          // unpaused, notify_all outstanding
    | CWaitTest           // holds the mutex; about to test for completion
    | CWaitSleep          // in tasks_done_cv, not notified
    | CWaitWoken

  datatype Action = Go | Detach(priority: int) | Pause | Unpause | Purge | Wait

  /** The last four fields are history: how many tasks were submitted, which were
      started (with multiplicity), finished, and purged. */
  datatype State = State(
    queue: seq<Task>, running: int, paused: bool, waiting: bool, threads: seq<Pc>,
    submitted: nat, started: multiset<nat>, finished: set<nat>, purged: set<nat>)

  predicate HoldsMutex(pc: Pc) {
    pc.WDec? || pc.WNotify? || pc.WTest? || pc.WPop? || pc.CWaitTest?
  }

  predicate MutexFree(s: State) {
    forall t :: 0 <= t < |s.threads| ==> !HoldsMutex(s.threads[t])
  }

  /** What a waiter waits for. */
  predicate Done(s: State) {
    s.running == 0 && (s.paused || s.queue == [])
  }

  function Move(s: State, t: nat, pc: Pc): State
    requires t < |s.threads|
  {
    s.(threads := s.threads[t := pc])
  }

  function WakeWorker(pc: Pc): Pc { if pc.WSleep? then WWoken else pc }

  function WakeWaiter(pc: Pc): Pc { if pc.CWaitSleep? then CWaitWoken else pc }

  function WakeWorkers(threads: seq<Pc>): (r: seq<Pc>)
    ensures |r| == |threads| && forall t :: 0 <= t < |threads| ==> r[t] == WakeWorker(threads[t])
  {
    seq(|threads|, t requires 0 <= t < |threads| => WakeWorker(threads[t]))
  }

  function WakeWaiters(threads: seq<Pc>): (r: seq<Pc>)
    ensures |r| == |threads| && forall t :: 0 <= t < |threads| ==> r[t] == WakeWaiter(threads[t])
  {
    seq(|threads|, t requires 0 <= t < |threads| => WakeWaiter(threads[t]))
  }

  /** The task that is popped: the front one, or with priorities a highest one. */
  predicate PopsAt(queue: seq<Task>, prioritized: bool, i: nat) {
    && i < |queue|
    && (if prioritized then forall j :: 0 <= j < |queue| ==> queue[j].priority <= queue[i].priority else i == 0)
  }

  function Ids(queue: seq<Task>): set<nat> {
    set i | 0 <= i < |queue| :: queue[i].id
  }

  predicate WorkerStep(s: State, prioritized: bool, t: nat, s': State)
    requires t < |s.threads|
  {
    match s.threads[t]
    case WInit => s' == Move(s, t, WEnter)
    case WRun(id) => s' == Move(s, t, WEnter).(finished := s.finished + {id})
    case WEnter => MutexFree(s) && s' == Move(s, t, WDec)
    case WDec => s' == Move(s, t, WNotify).(running := s.running - 1)
    case WNotify =>
      var notified := if s.waiting && Done(s) then s.(threads := WakeWaiters(s.threads)) else s;
      s' == Move(notified, t, WTest)
    case WTest => s' == Move(s, t, if !(s.paused || s.queue == []) then WPop else WSleep)
    case WPop =>
      exists i :: 0 <= i < |s.queue| && PopsAt(s.queue, prioritized, i) &&
        s' == Move(s, t, WRun(s.queue[i].id)).(
          queue := s.queue[..i] + s.queue[i + 1..], running := s.running + 1,
          started := s.started + multiset{s.queue[i].id})
    case WSleep => s' == Move(s, t, WWoken) // a spurious wakeup
    case WWoken => MutexFree(s) && s' == Move(s, t, WTest)
    case _ => false
  }

  predicate ClientStep(s: State, t: nat, a: Action, s': State)
    requires t < |s.threads|
  {
    match s.threads[t]
    case CIdle =>
      (match a
       case Detach(priority) =>
         MutexFree(s) && s' == Move(s, t, CNotifyOne).(
           queue := s.queue + [Task(s.submitted, priority)], submitted := s.submitted + 1)
       case Pause => MutexFree(s) && s' == s.(paused := true)
       case Unpause => MutexFree(s) && s' == Move(s, t, CNotifyAll).(paused := false)
       case Purge => MutexFree(s) && s' == s.(queue := [], purged := s.purged + Ids(s.queue))
       case Wait => MutexFree(s) && s' == Move(s, t, CWaitTest).(waiting := true)
       case Go => false)
    case CNotifyOne =>
      if exists u :: 0 <= u < |s.threads| && s.threads[u].WSleep? then
        exists u :: 0 <= u < |s.threads| && s.threads[u].WSleep? && s' == Move(Move(s, u, WWoken), t, CIdle)
      else
        s' == Move(s, t, CIdle)
    case CNotifyAll => s' == Move(s.(threads := WakeWorkers(s.threads)), t, CIdle)
    case CWaitTest => s' == if Done(s) then Move(s, t, CIdle).(waiting := false) else Move(s, t, CWaitSleep)
    case CWaitSleep => s' == Move(s, t, CWaitWoken) // a spurious wakeup
    case CWaitWoken => MutexFree(s) && s' == Move(s, t, CWaitTest)
    case _ => false
  }

  predicate Step(s: State, prioritized: bool, t: nat, a: Action, s': State) {
    t < |s.threads| && (WorkerStep(s, prioritized, t, s') || ClientStep(s, t, a, s'))
  }

  // ----- counting -----

  /** Workers that tasks_running stands for: initializing, or from popping a task until
      lowering the counter. */
  function Busy(pc: Pc): int {
    if pc.WInit? || pc.WRun? || pc.WEnter? || pc.WDec? then 1 else 0
  }

  /** Workers about to look at the queue, and notifications about to wake one. */
  function Alert(pc: Pc): int {
    if pc.WWoken? || pc.WTest? || pc.WPop? || pc.CNotifyOne? then 1 else 0
  }

  function Mutex(pc: Pc): int { if HoldsMutex(pc) then 1 else 0 }

  function Runs(pc: Pc, id: nat): int { if pc == WRun(id) then 1 else 0 }

  function RunsId(id: nat): Pc -> int { pc => Runs(pc, id) }

  function Is(task: Task, id: nat): int { if task.id == id then 1 else 0 }

  function IsId(id: nat): Task -> int { task => Is(task, id) }

  function In(x: nat, s: set<nat>): int { if x in s then 1 else 0 }

  /** In how many places task `id` is. */
  function Places(s: State, id: nat): int {
    Sum(s.queue, IsId(id)) + Sum(s.threads, RunsId(id)) + In(id, s.finished) + In(id, s.purged)
  }

  ghost predicate RunningOk(s: State) {
    s.running == Sum(s.threads, Busy)
  }

  ghost predicate MutexOk(s: State) {
    Sum(s.threads, Mutex) <= 1
  }

  ghost predicate Conserved(s: State) {
    forall id: nat :: Places(s, id) == if id < s.submitted then 1 else 0
  }

  ghost predicate StartedOnce(s: State) {
    forall id: nat :: s.started[id] == Sum(s.threads, RunsId(id)) + In(id, s.finished)
  }

  predicate SomeoneAt(threads: seq<Pc>, pc: Pc) {
    exists t :: 0 <= t < |threads| && threads[t] == pc
  }

  /** No lost wakeup: unpaused and with no notify_all outstanding, while a worker sleeps
      the queued tasks do not outnumber the alerts. */
  ghost predicate AlertOk(s: State) {
    !s.paused && !SomeoneAt(s.threads, CNotifyAll) && SomeoneAt(s.threads, WSleep) ==>
      |s.queue| <= Sum(s.threads, Alert)
  }

  ghost predicate Inv(s: State) {
    RunningOk(s) && MutexOk(s) && Conserved(s) && StartedOnce(s) && AlertOk(s)
  }

  // ----- how a step moves the counts -----

  lemma WakingWaitersMoves(threads: seq<Pc>, t: nat, pc: Pc, w: Pc -> int)
    requires t < |threads| && w(CWaitSleep) == w(CWaitWoken) && !threads[t].CWaitSleep?
    ensures Sum(WakeWaiters(threads)[t := pc], w) == Sum(threads, w) - w(threads[t]) + w(pc)
  {
    SumSame(threads, WakeWaiters(threads), w);
    SumUpdate(WakeWaiters(threads), t, pc, w);
  }

  lemma WakingWorkersMoves(threads: seq<Pc>, t: nat, pc: Pc, w: Pc -> int)
    requires t < |threads| && w(WSleep) == w(WWoken) && !threads[t].WSleep?
    ensures Sum(WakeWorkers(threads)[t := pc], w) == Sum(threads, w) - w(threads[t]) + w(pc)
  {
    SumSame(threads, WakeWorkers(threads), w);
    SumUpdate(WakeWorkers(threads), t, pc, w);
  }

  lemma WakingOneMoves(threads: seq<Pc>, u: nat, t: nat, pc: Pc, w: Pc -> int)
    requires t < |threads| && u < |threads| && threads[u].WSleep? && !threads[t].WSleep?
    ensures Sum(threads[u := WWoken][t := pc], w) == Sum(threads, w) - w(WSleep) + w(WWoken) - w(threads[t]) + w(pc)
  {
    SumUpdate(threads, u, WWoken, w);
    SumUpdate(threads[u := WWoken], t, pc, w);
  }

  /** A weight that does not tell sleeping from woken moves only with thread t. */
  lemma SumMoves(s: State, prioritized: bool, t: nat, a: Action, s': State, w: Pc -> int)
    requires Step(s, prioritized, t, a, s')
    requires w(WSleep) == w(WWoken) && w(CWaitSleep) == w(CWaitWoken)
    ensures |s'.threads| == |s.threads|
    ensures Sum(s'.threads, w) == Sum(s.threads, w) - w(s.threads[t]) + w(s'.threads[t])
  {
    if s.threads[t].WNotify? && s.waiting && Done(s) {
      WakingWaitersMoves(s.threads, t, WTest, w);
    } else if s.threads[t].CNotifyAll? {
      WakingWorkersMoves(s.threads, t, CIdle, w);
    } else if s.threads[t].CNotifyOne? && SomeoneAt(s.threads, WSleep) {
      var u :| 0 <= u < |s.threads| && s.threads[u].WSleep? && s' == Move(Move(s, u, WWoken), t, CIdle);
      WakingOneMoves(s.threads, u, t, CIdle, w);
    } else {
      PlainMove(s, prioritized, t, a, s');
      SumUpdate(s.threads, t, s'.threads[t], w);
    }
  }

  lemma PlainWorkerMove(s: State, prioritized: bool, t: nat, s': State)
    requires t < |s.threads| && WorkerStep(s, prioritized, t, s')
    requires !(s.threads[t].WNotify? && s.waiting && Done(s))
    ensures |s'.threads| == |s.threads| && s'.threads == s.threads[t := s'.threads[t]]
  {
  }

  lemma PlainClientMove(s: State, t: nat, a: Action, s': State)
    requires t < |s.threads| && ClientStep(s, t, a, s') && !s.threads[t].CNotifyAll?
    requires !(s.threads[t].CNotifyOne? && SomeoneAt(s.threads, WSleep))
    ensures |s'.threads| == |s.threads| && s'.threads == s.threads[t := s'.threads[t]]
  {
  }

  lemma PlainMove(s: State, prioritized: bool, t: nat, a: Action, s': State)
    requires Step(s, prioritized, t, a, s')
    requires !(s.threads[t].WNotify? && s.waiting && Done(s)) && !s.threads[t].CNotifyAll?
    requires !(s.threads[t].CNotifyOne? && SomeoneAt(s.threads, WSleep))
    ensures |s'.threads| == |s.threads| && s'.threads == s.threads[t := s'.threads[t]]
  {
    if WorkerStep(s, prioritized, t, s') {
      PlainWorkerMove(s, prioritized, t, s');
    } else {
      PlainClientMove(s, t, a, s');
    }
  }

  lemma WorkerRunning(s: State, prioritized: bool, t: nat, s': State)
    requires t < |s.threads| && WorkerStep(s, prioritized, t, s')
    ensures |s'.threads| == |s.threads| && s'.running - s.running == Busy(s'.threads[t]) - Busy(s.threads[t])
  {
  }

  lemma ClientRunning(s: State, t: nat, a: Action, s': State)
    requires t < |s.threads| && ClientStep(s, t, a, s')
    ensures |s'.threads| == |s.threads| && s'.running - s.running == Busy(s'.threads[t]) - Busy(s.threads[t])
  {
  }

  lemma RunningStep(s: State, prioritized: bool, t: nat, a: Action, s': State)
    requires Step(s, prioritized, t, a, s') && RunningOk(s)
    ensures RunningOk(s')
  {
    SumMoves(s, prioritized, t, a, s', Busy);
    if WorkerStep(s, prioritized, t, s') {
      WorkerRunning(s, prioritized, t, s');
    } else {
      ClientRunning(s, t, a, s');
    }
  }

  lemma {:induction false} FreeMutexSum(threads: seq<Pc>)
    requires forall t :: 0 <= t < |threads| ==> !HoldsMutex(threads[t])
    ensures Sum(threads, Mutex) == 0
  {
    SumConstant(threads, Mutex, 0);
  }

  lemma WorkerTakesMutex(s: State, prioritized: bool, t: nat, s': State)
    requires t < |s.threads| && WorkerStep(s, prioritized, t, s')
    ensures |s'.threads| == |s.threads|
    ensures HoldsMutex(s'.threads[t]) ==> HoldsMutex(s.threads[t]) || MutexFree(s)
  {
  }

  lemma ClientTakesMutex(s: State, t: nat, a: Action, s': State)
    requires t < |s.threads| && ClientStep(s, t, a, s')
    ensures |s'.threads| == |s.threads|
    ensures HoldsMutex(s'.threads[t]) ==> HoldsMutex(s.threads[t]) || MutexFree(s)
  {
  }

  lemma MutexStep(s: State, prioritized: bool, t: nat, a: Action, s': State)
    requires Step(s, prioritized, t, a, s') && MutexOk(s)
    ensures MutexOk(s')
  {
    SumMoves(s, prioritized, t, a, s', Mutex);
    if WorkerStep(s, prioritized, t, s') {
      WorkerTakesMutex(s, prioritized, t, s');
    } else {
      ClientTakesMutex(s, t, a, s');
    }
    if MutexFree(s) {
      FreeMutexSum(s.threads);
    }
  }

  // ----- conservation -----

  lemma {:induction false} QueueCountsIds(queue: seq<Task>, id: nat)
    ensures Sum(queue, IsId(id)) >= 0
    ensures Sum(queue, IsId(id)) >= 1 <==> id in Ids(queue)
  {
    if queue != [] {
      var last := |queue| - 1;
      QueueCountsIds(queue[..last], id);
      if id in Ids(queue[..last]) {
        var i :| 0 <= i < last && queue[..last][i].id == id;
        assert queue[i].id == id;
      }
      if id in Ids(queue) {
        var i :| 0 <= i < |queue| && queue[i].id == id;
        assert i < last ==> queue[..last][i].id == id;
      }
      assert queue[last].id in Ids(queue);
    }
  }

  lemma QueuePush(queue: seq<Task>, task: Task, id: nat)
    ensures Sum(queue + [task], IsId(id)) == Sum(queue, IsId(id)) + Is(task, id)
  {
    assert (queue + [task])[..|queue|] == queue;
  }

  lemma PlacesNonNegative(s: State, id: nat)
    ensures Sum(s.queue, IsId(id)) >= 0 && Sum(s.threads, RunsId(id)) >= 0
    ensures forall t :: 0 <= t < |s.threads| ==> Sum(s.threads, RunsId(id)) >= Runs(s.threads[t], id)
  {
    SumNonNegative(s.queue, IsId(id));
    SumNonNegative(s.threads, RunsId(id));
    forall t | 0 <= t < |s.threads|
      ensures Sum(s.threads, RunsId(id)) >= Runs(s.threads[t], id)
    {
      assert RunsId(id)(s.threads[t]) == Runs(s.threads[t], id);
    }
  }

  lemma DetachPlaces(s: State, t: nat, priority: int, s': State, id: nat)
    requires t < |s.threads| && s.threads[t].CIdle?
    requires s' == Move(s, t, CNotifyOne).(
               queue := s.queue + [Task(s.submitted, priority)], submitted := s.submitted + 1)
    requires Places(s, id) == if id < s.submitted then 1 else 0
    ensures Places(s', id) == if id < s'.submitted then 1 else 0
  {
    SumUpdate(s.threads, t, CNotifyOne, RunsId(id));
    QueuePush(s.queue, Task(s.submitted, priority), id);
  }

  lemma PurgePlaces(s: State, t: nat, a: Action, s': State, id: nat)
    requires Step(s, false, t, a, s') && s.threads[t].CIdle? && a.Purge?
    requires Places(s, id) == if id < s.submitted then 1 else 0
    ensures Places(s', id) == if id < s'.submitted then 1 else 0
  {
    QueueCountsIds(s.queue, id);
    PlacesNonNegative(s, id);
  }

  lemma PopPlaces(s: State, prioritized: bool, t: nat, s': State, id: nat)
    requires t < |s.threads| && s.threads[t].WPop? && WorkerStep(s, prioritized, t, s')
    ensures Places(s', id) == Places(s, id) && s'.submitted == s.submitted
  {
    var i :| 0 <= i < |s.queue| && PopsAt(s.queue, prioritized, i) &&
      s' == Move(s, t, WRun(s.queue[i].id)).(
        queue := s.queue[..i] + s.queue[i + 1..], running := s.running + 1,
        started := s.started + multiset{s.queue[i].id});
    SumUpdate(s.threads, t, WRun(s.queue[i].id), RunsId(id));
    PoppedOnce(s.queue, i, s'.queue, id);
  }

  lemma PoppedOnce(queue: seq<Task>, i: nat, rest: seq<Task>, id: nat)
    requires i < |queue| && rest == queue[..i] + queue[i + 1..]
    ensures Sum(rest, IsId(id)) + RunsId(id)(WRun(queue[i].id)) == Sum(queue, IsId(id))
  {
    SumRemove(queue, i, IsId(id));
  }

  lemma FinishPlaces(s: State, t: nat, s': State, id: nat)
    requires t < |s.threads| && s.threads[t].WRun?
    requires s' == Move(s, t, WEnter).(finished := s.finished + {s.threads[t].id})
    requires Places(s, id) == if id < s.submitted then 1 else 0
    ensures Places(s', id) == Places(s, id) && s'.submitted == s.submitted
  {
    SumUpdate(s.threads, t, WEnter, RunsId(id));
    PlacesNonNegative(s, id);
  }

  /** Steps that move no task. */
  ghost predicate TasksStay(s: State, t: nat, s': State)
    requires t < |s.threads| == |s'.threads|
  {
    && s'.queue == s.queue && s'.finished == s.finished && s'.purged == s.purged
    && s'.submitted == s.submitted && s'.started == s.started
    && !s.threads[t].WRun? && !s'.threads[t].WRun?
  }

  lemma WorkerTasksStay(s: State, prioritized: bool, t: nat, s': State)
    requires t < |s.threads| && WorkerStep(s, prioritized, t, s') && !s.threads[t].WRun? && !s.threads[t].WPop?
    ensures |s'.threads| == |s.threads| && TasksStay(s, t, s')
  {
  }

  lemma ClientTasksStay(s: State, t: nat, a: Action, s': State)
    requires t < |s.threads| && ClientStep(s, t, a, s')
    requires s.threads[t].CIdle? ==> !a.Detach? && !a.Purge?
    ensures |s'.threads| == |s.threads| && TasksStay(s, t, s')
  {
  }

  lemma OtherTasksStay(s: State, prioritized: bool, t: nat, a: Action, s': State)
    requires Step(s, prioritized, t, a, s') && !s.threads[t].WRun? && !s.threads[t].WPop?
    requires s.threads[t].CIdle? ==> !a.Detach? && !a.Purge?
    ensures |s'.threads| == |s.threads| && TasksStay(s, t, s')
  {
    if WorkerStep(s, prioritized, t, s') {
      WorkerTasksStay(s, prioritized, t, s');
    } else {
      ClientTasksStay(s, t, a, s');
    }
  }

  lemma OtherPlaces(s: State, prioritized: bool, t: nat, a: Action, s': State, id: nat)
    requires Step(s, prioritized, t, a, s') && !s.threads[t].WRun? && !s.threads[t].WPop?
    requires s.threads[t].CIdle? ==> !a.Detach? && !a.Purge?
    ensures Places(s', id) == Places(s, id) && s'.submitted == s.submitted
  {
    SumMoves(s, prioritized, t, a, s', RunsId(id));
    OtherTasksStay(s, prioritized, t, a, s');
  }

  lemma ConservedStep(s: State, prioritized: bool, t: nat, a: Action, s': State)
    requires Step(s, prioritized, t, a, s') && Conserved(s)
    ensures Conserved(s')
  {
    forall id: nat
      ensures Places(s', id) == if id < s'.submitted then 1 else 0
    {
      if s.threads[t].CIdle? && a.Detach? {
        DetachPlaces(s, t, a.priority, s', id);
      } else if s.threads[t].CIdle? && a.Purge? {
        PurgePlaces(s, t, a, s', id);
      } else if s.threads[t].WPop? {
        PopPlaces(s, prioritized, t, s', id);
      } else if s.threads[t].WRun? {
        FinishPlaces(s, t, s', id);
      } else {
        OtherPlaces(s, prioritized, t, a, s', id);
      }
    }
  }

  lemma StartedMoves(s: State, prioritized: bool, t: nat, a: Action, s': State, id: nat)
    requires Step(s, prioritized, t, a, s') && Places(s, id) <= 1
    requires s.threads[t].WRun? || s.threads[t].WPop? || (s.threads[t].CIdle? && (a.Detach? || a.Purge?))
    ensures |s'.threads| == |s.threads|
    ensures s'.started[id] - s.started[id] ==
      Runs(s'.threads[t], id) - Runs(s.threads[t], id) + In(id, s'.finished) - In(id, s.finished)
  {
    PlacesNonNegative(s, id);
  }

  lemma StartedStep(s: State, prioritized: bool, t: nat, a: Action, s': State)
    requires Step(s, prioritized, t, a, s') && StartedOnce(s) && Conserved(s)
    ensures StartedOnce(s')
  {
    forall id: nat
      ensures s'.started[id] == Sum(s'.threads, RunsId(id)) + In(id, s'.finished)
    {
      SumMoves(s, prioritized, t, a, s', RunsId(id));
      assert Places(s, id) <= 1;
      if s.threads[t].WRun? || s.threads[t].WPop? || (s.threads[t].CIdle? && (a.Detach? || a.Purge?)) {
        StartedMoves(s, prioritized, t, a, s', id);
      } else {
        OtherTasksStay(s, prioritized, t, a, s');
      }
    }
  }

  // ----- no lost wakeup for workers -----

  lemma AlertNotifyAll(s: State, t: nat, a: Action, s': State)
    requires Step(s, false, t, a, s') && s.threads[t].CNotifyAll?
    ensures !SomeoneAt(s'.threads, WSleep)
  {
  }

  lemma AlertNotifyOne(s: State, t: nat, a: Action, s': State)
    requires Step(s, false, t, a, s') && s.threads[t].CNotifyOne? && AlertOk(s)
    ensures AlertOk(s')
  {
    if SomeoneAt(s.threads, WSleep) {
      var u :| 0 <= u < |s.threads| && s.threads[u].WSleep? && s' == Move(Move(s, u, WWoken), t, CIdle);
      AlertWakesOne(s, u, t, s');
    } else {
      assert !SomeoneAt(s'.threads, WSleep);
    }
  }

  lemma AlertWakesOne(s: State, u: nat, t: nat, s': State)
    requires AlertOk(s) && t < |s.threads| && u < |s.threads|
    requires s.threads[t].CNotifyOne? && s.threads[u].WSleep?
    requires s' == Move(Move(s, u, WWoken), t, CIdle)
    ensures AlertOk(s')
  {
    WakingOneMoves(s.threads, u, t, CIdle, Alert);
    assert forall v :: 0 <= v < |s.threads| && v != t && v != u ==> s'.threads[v] == s.threads[v];
  }

  /** Of a worker's steps only popping, by one, loses more alerts than tasks. */
  lemma WorkerAlerts(s: State, prioritized: bool, t: nat, s': State)
    requires WorkerStepAlone(s, prioritized, t, s')
    ensures s'.paused == s.paused
    ensures |s'.queue| - |s.queue| <= Alert(s'.threads[t]) - Alert(s.threads[t])
      || (s.threads[t].WTest? && (s.paused || s.queue == []) && s'.queue == s.queue)
    ensures s'.threads[t].WSleep? ==> s.threads[t].WTest? && (s.paused || s.queue == [])
    ensures !s.threads[t].CNotifyAll?
  {
  }

  lemma AlertWorker(s: State, prioritized: bool, t: nat, a: Action, s': State)
    requires WorkerStepAlone(s, prioritized, t, s') && AlertOk(s)
    ensures AlertOk(s')
  {
    SumUpdate(s.threads, t, s'.threads[t], Alert);
    SumNonNegative(s'.threads, Alert);
    WorkerAlerts(s, prioritized, t, s');
    if SomeoneAt(s'.threads, WSleep) && !s'.threads[t].WSleep? {
      SleeperWasThere(s, t, s');
    }
    if u :| 0 <= u < |s.threads| && s.threads[u] == CNotifyAll {
      assert s'.threads[u] == CNotifyAll;
    }
  }

  lemma SleeperWasThere(s: State, t: nat, s': State)
    requires t < |s.threads| == |s'.threads| && s'.threads == s.threads[t := s'.threads[t]]
    requires !s'.threads[t].WSleep? && SomeoneAt(s'.threads, WSleep)
    ensures SomeoneAt(s.threads, WSleep)
  {
    var u :| 0 <= u < |s'.threads| && s'.threads[u] == WSleep;
    assert s.threads[u] == WSleep;
  }

  predicate WorkerStepAlone(s: State, prioritized: bool, t: nat, s': State) {
    && t < |s.threads| == |s'.threads|
    && WorkerStep(s, prioritized, t, s') && s'.threads == s.threads[t := s'.threads[t]]
  }

  lemma AlertWakesWaiters(s: State, t: nat, s': State)
    requires t < |s.threads| && s.threads[t].WNotify? && AlertOk(s)
    requires s' == Move(s.(threads := WakeWaiters(s.threads)), t, WTest)
    ensures AlertOk(s')
  {
    WakingWaitersMoves(s.threads, t, WTest, Alert);
    assert forall v :: 0 <= v < |s.threads| && v != t && s'.threads[v].WSleep? ==> s.threads[v].WSleep?;
    assert forall v :: 0 <= v < |s.threads| && v != t && s.threads[v].CNotifyAll? ==> s'.threads[v].CNotifyAll?;
  }

  lemma ClientAlerts(s: State, t: nat, a: Action, s': State)
    requires t < |s.threads| && ClientStep(s, t, a, s')
    requires !s.threads[t].CNotifyOne? && !s.threads[t].CNotifyAll?
    ensures |s'.threads| == |s.threads| && s'.threads == s.threads[t := s'.threads[t]]
    ensures !s'.threads[t].WSleep?
    ensures s'.paused || s'.threads[t].CNotifyAll? || (s'.paused == s.paused
      && |s'.queue| - |s.queue| <= Alert(s'.threads[t]) - Alert(s.threads[t])) || s'.queue == []
  {
  }

  lemma AlertClient(s: State, t: nat, a: Action, s': State)
    requires t < |s.threads| && ClientStep(s, t, a, s') && AlertOk(s)
    requires !s.threads[t].CNotifyOne? && !s.threads[t].CNotifyAll?
    ensures AlertOk(s')
  {
    ClientAlerts(s, t, a, s');
    SumUpdate(s.threads, t, s'.threads[t], Alert);
    SumNonNegative(s'.threads, Alert);
    if SomeoneAt(s'.threads, WSleep) {
      SleeperWasThere(s, t, s');
    }
    if u :| 0 <= u < |s.threads| && s.threads[u] == CNotifyAll {
      assert s'.threads[u] == CNotifyAll;
    }
    assert SomeoneAt(s'.threads, CNotifyAll) || !s'.threads[t].CNotifyAll?;
  }

  lemma AlertStep(s: State, prioritized: bool, t: nat, a: Action, s': State)
    requires Step(s, prioritized, t, a, s') && AlertOk(s)
    ensures AlertOk(s')
  {
    if s.threads[t].CNotifyAll? {
      AlertNotifyAll(s, t, a, s');
    } else if s.threads[t].CNotifyOne? {
      AlertNotifyOne(s, t, a, s');
    } else if s.threads[t].WNotify? && s.waiting && Done(s) {
      AlertWakesWaiters(s, t, s');
    } else if WorkerStep(s, prioritized, t, s') {
      PlainMove(s, prioritized, t, a, s');
      AlertWorker(s, prioritized, t, a, s');
    } else {
      AlertClient(s, t, a, s');
    }
  }

  /** Every step keeps all of the pool's invariants. */
  lemma StepKeeps(s: State, prioritized: bool, t: nat, a: Action, s': State)
    requires Inv(s) && Step(s, prioritized, t, a, s')
    ensures Inv(s')
  {
    RunningStep(s, prioritized, t, a, s');
    MutexStep(s, prioritized, t, a, s');
    ConservedStep(s, prioritized, t, a, s');
    StartedStep(s, prioritized, t, a, s');
    AlertStep(s, prioritized, t, a, s');
  }

  // ----- runs -----

  /** A pool just created: every worker initializing and counted as running. */
  predicate Initial(s: State) {
    && s.queue == [] && !s.waiting && s.submitted == 0
    && s.started == multiset{} && s.finished == {} && s.purged == {}
    && s.running == Sum(s.threads, Busy)
    && forall t :: 0 <= t < |s.threads| ==> s.threads[t].WInit? || s.threads[t].CIdle?
  }

  ghost predicate Next(s: State, prioritized: bool, s': State) {
    exists t: nat, a :: Step(s, prioritized, t, a, s')
  }

  ghost predicate StepAt(run: seq<State>, prioritized: bool, i: nat)
    requires i + 1 < |run|
  {
    Next(run[i], prioritized, run[i + 1])
  }

  ghost predicate IsRun(run: seq<State>, prioritized: bool) {
    |run| > 0 && Initial(run[0]) && forall i :: 0 <= i < |run| - 1 ==> StepAt(run, prioritized, i)
  }

  lemma InitialInv(s: State)
    requires Initial(s)
    ensures Inv(s)
  {
    SumConstant(s.threads, Mutex, 0);
    forall id: nat
      ensures Sum(s.threads, RunsId(id)) == 0 && Sum(s.queue, IsId(id)) == 0
    {
      SumConstant(s.threads, RunsId(id), 0);
    }
  }

  lemma {:induction false} RunKeeps(run: seq<State>, prioritized: bool, i: nat)
    requires IsRun(run, prioritized) && i < |run|
    ensures Inv(run[i])
  {
    if i == 0 {
      InitialInv(run[0]);
    } else {
      RunKeeps(run, prioritized, i - 1);
      assert StepAt(run, prioritized, i - 1);
      NextKeeps(run[i - 1], prioritized, run[i]);
    }
  }

  lemma NextKeeps(s: State, prioritized: bool, s': State)
    requires Inv(s) && Next(s, prioritized, s')
    ensures Inv(s')
  {
    var t: nat, a :| Step(s, prioritized, t, a, s');
    StepKeeps(s, prioritized, t, a, s');
  }

  lemma {:induction false} RunningCount(threads: seq<Pc>, id: nat)
    ensures Sum(threads, RunsId(id)) >= 1 <==> WRun(id) in threads
    ensures Sum(threads, RunsId(id)) >= 0
  {
    if threads != [] {
      var last := |threads| - 1;
      RunningCount(threads[..last], id);
      assert threads == threads[..last] + [threads[last]];
    }
  }

  /** In every state of every run, whatever the popping order, a submitted task is in
      exactly one place: queued, running, finished or purged; and it was started at most
      once, exactly if it is running or finished. */
  lemma TasksConserved(run: seq<State>, prioritized: bool, i: nat, id: nat)
    requires IsRun(run, prioritized) && i < |run| && id < run[i].submitted
    ensures var s := run[i];
      var places := [id in Ids(s.queue), WRun(id) in s.threads, id in s.finished, id in s.purged];
      && (exists p :: 0 <= p < 4 && places[p])
      && (forall p, q :: 0 <= p < q < 4 && places[p] ==> !places[q])
      && s.started[id] <= 1
      && (s.started[id] == 1 <==> WRun(id) in s.threads || id in s.finished)
  {
    RunKeeps(run, prioritized, i);
    var s := run[i];
    assert Places(s, id) == 1;
    QueueCountsIds(s.queue, id);
    RunningCount(s.threads, id);
    var places := [id in Ids(s.queue), WRun(id) in s.threads, id in s.finished, id in s.purged];
    assert places[0] || places[1] || places[2] || places[3];
  }

  /** tasks_running is the number of workers initializing or between popping a task and
      reporting it, so it never underflows when a worker lowers it. */
  lemma RunningCounterExact(run: seq<State>, prioritized: bool, i: nat)
    requires IsRun(run, prioritized) && i < |run|
    ensures run[i].running == Sum(run[i].threads, Busy) >= 0
    ensures forall t :: 0 <= t < |run[i].threads| && run[i].threads[t].WDec? ==> run[i].running >= 1
  {
    RunKeeps(run, prioritized, i);
    SumNonNegative(run[i].threads, Busy);
    assert forall t :: 0 <= t < |run[i].threads| && run[i].threads[t].WDec? ==> Busy(run[i].threads[t]) == 1;
  }

  /** When `wait` is about to return while the pool is not paused, every task submitted
      so far has finished or been purged; paused or not, none is running. */
  lemma WaitMeansDone(run: seq<State>, prioritized: bool, i: nat, id: nat)
    requires IsRun(run, prioritized) && i < |run| && id < run[i].submitted && Done(run[i])
    ensures WRun(id) !in run[i].threads
    ensures !run[i].paused ==> id in run[i].finished || id in run[i].purged
  {
    RunKeeps(run, prioritized, i);
    var s := run[i];
    SumNonNegative(s.threads, Busy);
    assert forall t :: 0 <= t < |s.threads| ==> Busy(s.threads[t]) == 0;
    RunningCount(s.threads, id);
    assert Places(s, id) == 1;
  }

  lemma {:induction false} NoAlertSum(threads: seq<Pc>)
    requires forall t :: 0 <= t < |threads| ==> Alert(threads[t]) == 0
    ensures Sum(threads, Alert) == 0
  {
    SumConstant(threads, Alert, 0);
  }

  /** Workers lose no wakeup: in any run, once no notification is outstanding and no
      woken worker has yet to look at the queue, an unpaused pool with queued tasks has
      no sleeping worker. */
  lemma NoIdleWorkerWithTasks(run: seq<State>, prioritized: bool, i: nat)
    requires IsRun(run, prioritized) && i < |run|
    requires !run[i].paused && run[i].queue != [] && !SomeoneAt(run[i].threads, CNotifyAll)
    requires forall t :: 0 <= t < |run[i].threads| ==> Alert(run[i].threads[t]) == 0
    ensures !SomeoneAt(run[i].threads, WSleep)
  {
    RunKeeps(run, prioritized, i);
    NoAlertSum(run[i].threads);
  }

  /** More generally the queue never outgrows the alerts while a worker sleeps. */
  lemma SleepersAreAlerted(run: seq<State>, prioritized: bool, i: nat)
    requires IsRun(run, prioritized) && i < |run|
    requires !run[i].paused && !SomeoneAt(run[i].threads, CNotifyAll) && SomeoneAt(run[i].threads, WSleep)
    ensures |run[i].queue| <= Sum(run[i].threads, Alert)
  {
    RunKeeps(run, prioritized, i);
  }
}
