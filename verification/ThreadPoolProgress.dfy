/** What the pool gets done: the order in which tasks are started, what a pause holds
    back, how a worker left to itself empties the queue, and what each call achieves. */
module ThreadPoolProgress {
  import opened Counting
  import opened ThreadPool

  /** A step leaves the other threads where they are, but may wake them. */
  predicate Undisturbed(pc: Pc, pc': Pc) {
    pc' == pc || pc' == WakeWorker(pc) || pc' == WakeWaiter(pc)
  }

  lemma OthersStay(s: State, prioritized: bool, t: nat, a: Action, s': State, u: nat)
    requires Step(s, prioritized, t, a, s') && u < |s.threads| && u != t
    ensures |s'.threads| == |s.threads| && Undisturbed(s.threads[u], s'.threads[u])
  {
    if WorkerStep(s, prioritized, t, s') {
      WorkerOthersStay(s, prioritized, t, s', u);
    } else {
      ClientOthersStay(s, t, a, s', u);
    }
  }

  lemma WorkerOthersStay(s: State, prioritized: bool, t: nat, s': State, u: nat)
    requires t < |s.threads| && WorkerStep(s, prioritized, t, s') && u < |s.threads| && u != t
    ensures |s'.threads| == |s.threads| && Undisturbed(s.threads[u], s'.threads[u])
  {
  }

  lemma ClientOthersStay(s: State, t: nat, a: Action, s': State, u: nat)
    requires t < |s.threads| && ClientStep(s, t, a, s') && u < |s.threads| && u != t
    ensures |s'.threads| == |s.threads| && Undisturbed(s.threads[u], s'.threads[u])
  {
  }

  // ----- a task that is found is still there -----

  /** Whoever has found an available task finds one to pop, in a pool that is not paused. */
  ghost predicate PopReady(s: State) {
    forall t :: 0 <= t < |s.threads| && s.threads[t].WPop? ==> !s.paused && s.queue != []
  }

  lemma OneHoldsMutex(s: State, t: nat, u: nat)
    requires MutexOk(s) && t < |s.threads| && u < |s.threads| && t != u
    ensures !HoldsMutex(s.threads[t]) || !HoldsMutex(s.threads[u])
  {
    var rest := s.threads[t := WInit];
    SumUpdate(s.threads, t, WInit, Mutex);
    SumNonNegative(rest, Mutex);
    assert rest[u] == s.threads[u];
  }

  /** The queue and the flag `paused` change under the mutex only. */
  lemma QueueUnderMutex(s: State, prioritized: bool, t: nat, a: Action, s': State)
    requires Step(s, prioritized, t, a, s') && (s'.queue != s.queue || s'.paused != s.paused)
    ensures HoldsMutex(s.threads[t]) || MutexFree(s)
  {
  }

  lemma FoundOnTest(s: State, prioritized: bool, t: nat, a: Action, s': State)
    requires Step(s, prioritized, t, a, s') && |s'.threads| == |s.threads| && s'.threads[t].WPop?
    ensures !s'.paused && s'.queue != []
  {
    if WorkerStep(s, prioritized, t, s') {
      WorkerFinds(s, prioritized, t, s');
    } else {
      ClientFindsNone(s, t, a, s');
    }
  }

  lemma WorkerFinds(s: State, prioritized: bool, t: nat, s': State)
    requires t < |s.threads| == |s'.threads| && WorkerStep(s, prioritized, t, s') && s'.threads[t].WPop?
    ensures s.threads[t].WTest? && s'.paused == s.paused == false && s'.queue == s.queue != []
  {
  }

  lemma ClientFindsNone(s: State, t: nat, a: Action, s': State)
    requires t < |s.threads| && ClientStep(s, t, a, s')
    ensures |s'.threads| == |s.threads| && !s'.threads[t].WPop? && !s'.threads[t].WRun?
  {
  }

  lemma PopReadyStep(s: State, prioritized: bool, t: nat, a: Action, s': State)
    requires MutexOk(s) && PopReady(s) && Step(s, prioritized, t, a, s')
    ensures PopReady(s')
  {
    SumMoves(s, prioritized, t, a, s', Mutex);
    forall u | 0 <= u < |s'.threads| && s'.threads[u].WPop? ensures !s'.paused && s'.queue != [] {
      if u == t {
        FoundOnTest(s, prioritized, t, a, s');
      } else {
        OthersStay(s, prioritized, t, a, s', u);
        OneHoldsMutex(s, t, u);
        if s'.queue != s.queue || s'.paused != s.paused {
          QueueUnderMutex(s, prioritized, t, a, s');
        }
      }
    }
  }

  // ----- the order of starting -----

  /** Queued tasks are in the order of submission, and everything started came before. */
  ghost predicate InOrder(s: State) {
    && (forall i, j :: 0 <= i < j < |s.queue| ==> s.queue[i].id < s.queue[j].id)
    && (forall i :: 0 <= i < |s.queue| ==> s.queue[i].id < s.submitted)
    && (forall id :: s.started[id] > 0 ==> id < s.submitted)
    && (forall id, i :: s.started[id] > 0 && 0 <= i < |s.queue| ==> id < s.queue[i].id)
  }

  lemma InOrderPop(s: State, t: nat, s': State)
    requires InOrder(s) && t < |s.threads| && WorkerStep(s, false, t, s') && s.threads[t].WPop?
    ensures InOrder(s')
  {
    FrontPopped(s, t, s');
    InOrderTail(s, s');
  }

  lemma FrontPopped(s: State, t: nat, s': State)
    requires t < |s.threads| && WorkerStep(s, false, t, s') && s.threads[t].WPop?
    ensures s.queue != [] && s'.queue == s.queue[1..] && s'.submitted == s.submitted
    ensures s'.started == s.started + multiset{s.queue[0].id}
  {
  }

  lemma InOrderTail(s: State, s': State)
    requires InOrder(s) && s.queue != [] && s'.queue == s.queue[1..] && s'.submitted == s.submitted
    requires s'.started == s.started + multiset{s.queue[0].id}
    ensures InOrder(s')
  {
    forall id | s'.started[id] > 0 ensures id == s.queue[0].id || s.started[id] > 0 {
    }
  }

  lemma InOrderDetach(s: State, t: nat, priority: int, s': State)
    requires InOrder(s) && t < |s.threads| && ClientStep(s, t, Detach(priority), s') && s.threads[t].CIdle?
    ensures InOrder(s')
  {
  }

  lemma InOrderStep(s: State, t: nat, a: Action, s': State)
    requires InOrder(s) && Step(s, false, t, a, s')
    ensures InOrder(s')
  {
    if s.threads[t].WPop? {
      InOrderPop(s, t, s');
    } else if s.threads[t].CIdle? && a.Detach? {
      InOrderDetach(s, t, a.priority, s');
    } else if s.threads[t].CIdle? && a.Purge? {
      assert s'.queue == [];
    } else if !s.threads[t].WRun? {
      OtherTasksStay(s, false, t, a, s');
    }
  }

  lemma {:induction false} RunInOrder(run: seq<State>, i: nat)
    requires IsRun(run, false) && i < |run|
    ensures InOrder(run[i])
  {
    if i > 0 {
      RunInOrder(run, i - 1);
      assert StepAt(run, false, i - 1);
      var t: nat, a :| Step(run[i - 1], false, t, a, run[i]);
      InOrderStep(run[i - 1], t, a, run[i]);
    }
  }

  /** First in, first out: in every state of every run of a pool without priorities, a
      task that has been started was submitted before every task still queued. */
  lemma StartedInOrder(run: seq<State>, i: nat, a: nat, b: nat)
    requires IsRun(run, false) && i < |run| && run[i].started[a] > 0 && b in Ids(run[i].queue)
    ensures a < b
  {
    RunInOrder(run, i);
    var j :| 0 <= j < |run[i].queue| && run[i].queue[j].id == b;
    assert a < run[i].queue[j].id;
  }

  ghost predicate TakesFromQueue(s: State, t: nat, s': State) {
    t < |s.threads| == |s'.threads| && !s.threads[t].WRun? && s'.threads[t].WRun?
  }

  lemma Removed(queue: seq<Task>, i: nat)
    requires i < |queue|
    ensures multiset(queue) == multiset(queue[..i] + queue[i + 1..]) + multiset{queue[i]}
  {
    assert queue == queue[..i] + [queue[i]] + queue[i + 1..];
  }

  lemma OnlyPopsTake(s: State, prioritized: bool, t: nat, a: Action, s': State, u: nat)
    requires Step(s, prioritized, t, a, s') && TakesFromQueue(s, u, s')
    ensures u == t && s.threads[t].WPop? && WorkerStep(s, prioritized, t, s')
  {
    if u != t {
      OthersStay(s, prioritized, t, a, s', u);
    } else if WorkerStep(s, prioritized, t, s') {
      WorkerTakes(s, prioritized, t, s');
    } else {
      ClientFindsNone(s, t, a, s');
    }
  }

  lemma WorkerTakes(s: State, prioritized: bool, t: nat, s': State)
    requires t < |s.threads| == |s'.threads| && WorkerStep(s, prioritized, t, s')
    requires !s.threads[t].WRun? && s'.threads[t].WRun?
    ensures s.threads[t].WPop?
  {
  }

  /** A step that takes a task off the queue into a worker takes exactly one, and with
      priorities leaves none of higher priority behind. */
  lemma TakesHighest(s: State, prioritized: bool, s': State, u: nat) returns (task: Task)
    requires Next(s, prioritized, s') && TakesFromQueue(s, u, s')
    ensures s'.threads[u] == WRun(task.id) && multiset(s.queue) == multiset(s'.queue) + multiset{task}
    ensures prioritized ==> forall other :: other in s'.queue ==> other.priority <= task.priority
  {
    var t: nat, a :| Step(s, prioritized, t, a, s');
    OnlyPopsTake(s, prioritized, t, a, s', u);
    var i :| 0 <= i < |s.queue| && PopsAt(s.queue, prioritized, i)
      && s'.threads[t] == WRun(s.queue[i].id) && s'.queue == s.queue[..i] + s.queue[i + 1..];
    Removed(s.queue, i);
    task := s.queue[i];
    forall other | other in s'.queue && prioritized ensures other.priority <= task.priority {
      assert other in multiset(s'.queue);
      assert other in multiset(s.queue);
    }
  }

  /** A task keeps the priority it was submitted with. */
  lemma QueueFrom(s: State, prioritized: bool, t: nat, a: Action, s': State, task: Task)
    requires Step(s, prioritized, t, a, s') && task in s'.queue
    ensures task in s.queue || task.id == s.submitted
    ensures s'.submitted >= s.submitted
  {
    if s.threads[t].WPop? {
      PoppedFrom(s, prioritized, t, s');
    } else if s.threads[t].CIdle? && a.Detach? {
      assert s'.queue == s.queue + [Task(s.submitted, a.priority)];
    } else if !s.threads[t].WRun? && !(s.threads[t].CIdle? && a.Purge?) {
      OtherTasksStay(s, prioritized, t, a, s');
    }
  }

  lemma PoppedFrom(s: State, prioritized: bool, t: nat, s': State)
    requires t < |s.threads| && s.threads[t].WPop? && WorkerStep(s, prioritized, t, s')
    ensures s'.submitted == s.submitted && forall task :: task in s'.queue ==> task in s.queue
  {
    var i :| 0 <= i < |s.queue| && s'.queue == s.queue[..i] + s.queue[i + 1..];
  }

  lemma QueuedWasSubmitted(s: State, task: Task)
    requires Conserved(s) && task in s.queue && task.id >= 0
    ensures task.id < s.submitted
  {
    var i :| 0 <= i < |s.queue| && s.queue[i] == task;
    QueueCountsIds(s.queue, task.id);
    PlacesNonNegative(s, task.id);
    assert Places(s, task.id) == if task.id < s.submitted then 1 else 0;
  }

  lemma NextQueueFrom(s: State, prioritized: bool, s': State, task: Task)
    requires Conserved(s) && Next(s, prioritized, s')
    ensures s'.submitted >= s.submitted
    ensures task in s'.queue && 0 <= task.id < s.submitted ==> task in s.queue
  {
    var u: nat, a :| Step(s, prioritized, u, a, s');
    SubmittedGrows(s, prioritized, u, a, s');
    if task in s'.queue {
      QueueFrom(s, prioritized, u, a, s', task);
    }
  }

  lemma SubmittedGrows(s: State, prioritized: bool, t: nat, a: Action, s': State)
    requires Step(s, prioritized, t, a, s')
    ensures s'.submitted >= s.submitted
  {
  }

  ghost predicate Detaches(s: State, prioritized: bool, p: int, s': State) {
    exists t: nat :: t < |s.threads| && s.threads[t].CIdle? && Step(s, prioritized, t, Detach(p), s')
  }

  lemma DetachedTask(s: State, prioritized: bool, p: int, s': State)
    requires Conserved(s) && Detaches(s, prioritized, p, s')
    ensures s'.submitted == s.submitted + 1 && Task(s.submitted, p) in s'.queue
    ensures forall task :: task in s'.queue && task.id == s.submitted ==> task.priority == p
  {
    assert s'.queue == s.queue + [Task(s.submitted, p)];
    forall task | task in s'.queue && task.id == s.submitted ensures task.priority == p {
      if task in s.queue {
        QueuedWasSubmitted(s, task);
      }
    }
  }

  lemma DetachedAt(run: seq<State>, prioritized: bool, i: nat, p: int, task: Task)
    requires IsRun(run, prioritized) && i + 1 < |run| && Detaches(run[i], prioritized, p, run[i + 1])
    ensures run[i + 1].submitted > run[i].submitted
    ensures task in run[i + 1].queue && task.id == run[i].submitted ==> task.priority == p
  {
    RunKeeps(run, prioritized, i);
    DetachedTask(run[i], prioritized, p, run[i + 1]);
  }

  lemma QueuedBefore(run: seq<State>, prioritized: bool, j: nat, task: Task)
    requires IsRun(run, prioritized) && j + 1 < |run|
    ensures run[j + 1].submitted >= run[j].submitted
    ensures task in run[j + 1].queue && 0 <= task.id < run[j].submitted ==> task in run[j].queue
  {
    RunKeeps(run, prioritized, j);
    assert StepAt(run, prioritized, j);
    NextQueueFrom(run[j], prioritized, run[j + 1], task);
  }

  /** After `detach_task` with a priority, the task has that priority for as long as it is
      queued. */
  lemma {:induction false} PriorityKept(run: seq<State>, prioritized: bool, i: nat, p: int, j: nat, task: Task)
    requires IsRun(run, prioritized) && i < j < |run| && Detaches(run[i], prioritized, p, run[i + 1])
    ensures run[j].submitted > run[i].submitted
    ensures task in run[j].queue && task.id == run[i].submitted ==> task.priority == p
    decreases j
  {
    if i == j - 1 {
      DetachedAt(run, prioritized, i, p, task);
    } else {
      PriorityKept(run, prioritized, i, p, j - 1, task);
      QueuedBefore(run, prioritized, j - 1, task);
    }
  }

  // ----- pausing -----

  ghost predicate Pauses(s: State, prioritized: bool, s': State) {
    exists t: nat :: t < |s.threads| && s.threads[t].CIdle? && Step(s, prioritized, t, Pause, s')
  }

  ghost predicate Unpauses(s: State, prioritized: bool, s': State) {
    exists t: nat :: t < |s.threads| && s.threads[t].CIdle? && Step(s, prioritized, t, Unpause, s')
  }

  lemma {:induction false} RunPopReady(run: seq<State>, prioritized: bool, i: nat)
    requires IsRun(run, prioritized) && i < |run|
    ensures PopReady(run[i])
  {
    if i > 0 {
      RunPopReady(run, prioritized, i - 1);
      RunKeeps(run, prioritized, i - 1);
      assert StepAt(run, prioritized, i - 1);
      var t: nat, a :| Step(run[i - 1], prioritized, t, a, run[i]);
      PopReadyStep(run[i - 1], prioritized, t, a, run[i]);
    }
  }

  lemma PausedStep(s: State, prioritized: bool, s': State)
    requires PopReady(s) && Next(s, prioritized, s') && s.paused && !Unpauses(s, prioritized, s')
    ensures s'.paused && s'.started == s.started
  {
    var t: nat, a :| Step(s, prioritized, t, a, s');
    assert !s.threads[t].WPop?;
    if WorkerStep(s, prioritized, t, s') {
      PausedWorker(s, prioritized, t, s');
    } else {
      assert !(s.threads[t].CIdle? && a.Unpause?);
      PausedClient(s, t, a, s');
    }
  }

  lemma PausedWorker(s: State, prioritized: bool, t: nat, s': State)
    requires t < |s.threads| && WorkerStep(s, prioritized, t, s') && !s.threads[t].WPop?
    ensures s'.paused == s.paused && s'.started == s.started
  {
  }

  lemma PausedClient(s: State, t: nat, a: Action, s': State)
    requires t < |s.threads| && ClientStep(s, t, a, s')
    ensures s'.started == s.started
    ensures s'.paused == if s.threads[t].CIdle? && a.Pause? then true
                         else if s.threads[t].CIdle? && a.Unpause? then false else s.paused
  {
  }

  /** From `pause` until `unpause`, whatever else happens, no task is started. */
  lemma {:induction false} PausedStartsNothing(run: seq<State>, prioritized: bool, i: nat, j: nat)
    requires IsRun(run, prioritized) && i < j < |run| && Pauses(run[i], prioritized, run[i + 1])
    requires forall m :: i < m < j ==> !Unpauses(run[m], prioritized, run[m + 1])
    ensures run[j].paused && run[j].started == run[i].started
    decreases j
  {
    if i == j - 1 {
      var t: nat :| t < |run[i].threads| && run[i].threads[t].CIdle? && Step(run[i], prioritized, t, Pause, run[i + 1]);
      PausedClient(run[i], t, Pause, run[i + 1]);
    } else {
      PausedStartsNothing(run, prioritized, i, j - 1);
      RunPopReady(run, prioritized, j - 1);
      assert StepAt(run, prioritized, j - 1);
      assert !Unpauses(run[j - 1], prioritized, run[j - 1 + 1]);
      PausedStep(run[j - 1], prioritized, run[j]);
    }
  }

  // ----- a worker left to itself -----

  predicate IsWorker(pc: Pc) {
    pc.WInit? || pc.WRun? || pc.WEnter? || pc.WDec? || pc.WNotify? || pc.WTest? || pc.WPop? || pc.WSleep? || pc.WWoken?
  }

  /** Nobody else has the mutex. */
  predicate MutexWithin(s: State, t: nat) {
    forall u :: 0 <= u < |s.threads| && u != t ==> !HoldsMutex(s.threads[u])
  }

  /** Own steps until the worker looks for a task next. */
  function Cost(pc: Pc): nat {
    match pc
    case WRun(_) => 5
    case WInit => 5
    case WEnter => 4
    case WDec => 3
    case WNotify => 2
    case WWoken => 2
    case WTest => 1
    case _ => 0
  }

  /** Own steps until the worker sleeps. */
  function Budget(s: State, t: nat): nat
    requires t < |s.threads|
  {
    6 * |s.queue| + Cost(s.threads[t])
  }

  lemma {:induction false} SomethingPops(queue: seq<Task>, prioritized: bool) returns (i: nat)
    requires queue != []
    ensures PopsAt(queue, prioritized, i)
  {
    i := 0;
    if prioritized && |queue| > 1 {
      var last := |queue| - 1;
      i := SomethingPops(queue[..last], prioritized);
      if queue[i].priority < queue[last].priority {
        i := last;
      }
      assert forall j :: 0 <= j < last ==> queue[..last][j] == queue[j];
    }
  }

  /** A worker always has a step, unless somebody else has the mutex. */
  lemma WorkerHasStep(s: State, prioritized: bool, t: nat) returns (s': State)
    requires t < |s.threads| && IsWorker(s.threads[t]) && MutexWithin(s, t) && PopReady(s)
    ensures WorkerStep(s, prioritized, t, s')
  {
    if s.threads[t].WPop? {
      var i := SomethingPops(s.queue, prioritized);
      s' := Move(s, t, WRun(s.queue[i].id)).(
        queue := s.queue[..i] + s.queue[i + 1..], running := s.running + 1,
        started := s.started + multiset{s.queue[i].id});
    } else {
      s' := OtherWorkerStep(s, prioritized, t);
    }
  }

  lemma OtherWorkerStep(s: State, prioritized: bool, t: nat) returns (s': State)
    requires t < |s.threads| && IsWorker(s.threads[t]) && MutexWithin(s, t) && !s.threads[t].WPop?
    ensures WorkerStep(s, prioritized, t, s')
  {
    match s.threads[t]
    case WInit => s' := Move(s, t, WEnter);
    case WRun(id) => s' := Move(s, t, WEnter).(finished := s.finished + {id});
    case WEnter => s' := Move(s, t, WDec);
    case WDec => s' := Move(s, t, WNotify).(running := s.running - 1);
    case WNotify =>
      s' := Move(if s.waiting && Done(s) then s.(threads := WakeWaiters(s.threads)) else s, t, WTest);
    case WTest => s' := Move(s, t, if !(s.paused || s.queue == []) then WPop else WSleep);
    case WSleep => s' := Move(s, t, WWoken);
    case WWoken => s' := Move(s, t, WTest);
  }

  lemma WorkerSpends(s: State, prioritized: bool, t: nat, s': State)
    requires t < |s.threads| && IsWorker(s.threads[t]) && !s.threads[t].WSleep? && WorkerStep(s, prioritized, t, s')
    ensures |s'.threads| == |s.threads| && IsWorker(s'.threads[t]) && Budget(s', t) < Budget(s, t)
    ensures s'.threads[t].WSleep? ==> s'.paused || s'.queue == []
  {
  }

  function Own(pc: Pc): set<nat> { if pc.WRun? then {pc.id} else {} }

  /** What worker t has in hand, what is queued and what is finished, all in all. */
  function AllWork(s: State, t: nat): set<int>
    requires t < |s.threads|
  {
    s.finished + Ids(s.queue) + Own(s.threads[t])
  }

  lemma WorkerMovesWork(s: State, prioritized: bool, t: nat, s': State)
    requires t < |s.threads| && WorkerStep(s, prioritized, t, s')
    ensures |s'.threads| == |s.threads| && AllWork(s', t) == AllWork(s, t)
    ensures s'.paused == s.paused && s'.purged == s.purged && s'.submitted == s.submitted
  {
    if s.threads[t].WPop? {
      PopMovesWork(s, prioritized, t, s');
    } else if !s.threads[t].WRun? {
      WorkerTasksStay(s, prioritized, t, s');
    }
  }

  lemma PopMovesWork(s: State, prioritized: bool, t: nat, s': State)
    requires t < |s.threads| && s.threads[t].WPop? && WorkerStep(s, prioritized, t, s')
    ensures |s'.threads| == |s.threads| && AllWork(s', t) == AllWork(s, t)
  {
    var i :| 0 <= i < |s.queue| && s'.queue == s.queue[..i] + s.queue[i + 1..]
      && s'.threads == s.threads[t := WRun(s.queue[i].id)] && s'.finished == s.finished;
    IdsWithout(s.queue, i);
  }

  lemma IdsWithout(queue: seq<Task>, i: nat)
    requires i < |queue|
    ensures Ids(queue) == Ids(queue[..i] + queue[i + 1..]) + {queue[i].id}
  {
    var rest := queue[..i] + queue[i + 1..];
    forall id | id in Ids(queue) ensures id in Ids(rest) + {queue[i].id} {
      var j :| 0 <= j < |queue| && queue[j].id == id;
      if j < i {
        assert rest[j] == queue[j];
      } else if j > i {
        assert rest[j - 1] == queue[j];
      }
    }
    forall id | id in Ids(rest) ensures id in Ids(queue) {
      var j :| 0 <= j < |rest| && rest[j].id == id;
      assert rest[j] == queue[if j < i then j else j + 1];
    }
  }

  predicate AwakeStep(s: State, prioritized: bool, t: nat, s': State) {
    t < |s.threads| && !s.threads[t].WSleep? && WorkerStep(s, prioritized, t, s')
  }

  /** States of a run in which worker t alone moves, and sleeps at the end if at all. */
  ghost predicate SoloWorker(path: seq<State>, prioritized: bool, t: nat) {
    && |path| > 0 && t < |path[0].threads| && IsWorker(path[0].threads[t])
    && forall m :: 0 < m < |path| ==> AwakeStep(path[m - 1], prioritized, t, path[m])
  }

  lemma {:induction false} SoloWorkerSpends(path: seq<State>, prioritized: bool, t: nat, n: nat)
    requires SoloWorker(path, prioritized, t) && n < |path|
    ensures t < |path[n].threads| && IsWorker(path[n].threads[t]) && n + Budget(path[n], t) <= Budget(path[0], t)
    ensures AllWork(path[n], t) == AllWork(path[0], t)
    ensures path[n].paused == path[0].paused && path[n].purged == path[0].purged
    ensures path[n].submitted == path[0].submitted
    ensures n > 0 && path[n].threads[t].WSleep? ==> path[n].paused || path[n].queue == []
  {
    if n > 0 {
      SoloWorkerSpends(path, prioritized, t, n - 1);
      assert AwakeStep(path[n - 1], prioritized, t, path[n]);
      WorkerSpends(path[n - 1], prioritized, t, path[n]);
      WorkerMovesWork(path[n - 1], prioritized, t, path[n]);
    }
  }

  /** However long worker t alone moves, it sleeps after at most six steps for each queued
      task and five more; and when it does in a pool that is not paused, it has finished
      every task that was queued, and its own. */
  lemma SoloWorkerEmptiesQueue(path: seq<State>, prioritized: bool, t: nat)
    requires SoloWorker(path, prioritized, t) && |path| > 1
    ensures |path| - 1 <= 6 * |path[0].queue| + 5
    ensures var s, s' := path[0], path[|path| - 1];
      t < |s'.threads| && s'.threads[t].WSleep? && !s.paused ==>
      s'.queue == [] && s'.finished == s.finished + Ids(s.queue) + Own(s.threads[t])
  {
    SoloWorkerSpends(path, prioritized, t, |path| - 1);
    assert Cost(path[0].threads[t]) <= 5;
  }

  lemma MutexStaysWithin(s: State, prioritized: bool, t: nat, s': State)
    requires t < |s.threads| && IsWorker(s.threads[t]) && WorkerStep(s, prioritized, t, s') && MutexWithin(s, t)
    ensures MutexWithin(s', t)
  {
    forall u | 0 <= u < |s'.threads| && u != t ensures !HoldsMutex(s'.threads[u]) {
      WorkerOthersStay(s, prioritized, t, s', u);
    }
  }

  /** And it can always go on until it sleeps. */
  lemma {:induction false} WorkerGoesToSleep(s: State, prioritized: bool, t: nat) returns (path: seq<State>)
    requires MutexOk(s) && PopReady(s) && t < |s.threads| && IsWorker(s.threads[t]) && MutexWithin(s, t)
    ensures SoloWorker(path, prioritized, t) && path[0] == s
    ensures t < |path[|path| - 1].threads| && path[|path| - 1].threads[t].WSleep?
    decreases Budget(s, t)
  {
    if s.threads[t].WSleep? {
      path := [s];
    } else {
      var s' := WorkerHasStep(s, prioritized, t);
      assert Step(s, prioritized, t, Go, s');
      WorkerSpends(s, prioritized, t, s');
      MutexStaysWithin(s, prioritized, t, s');
      MutexStep(s, prioritized, t, Go, s');
      PopReadyStep(s, prioritized, t, Go, s');
      var rest := WorkerGoesToSleep(s', prioritized, t);
      WorkerStepFirst(s, prioritized, t, rest);
      path := [s] + rest;
    }
  }

  lemma WorkerStepFirst(s: State, prioritized: bool, t: nat, rest: seq<State>)
    requires SoloWorker(rest, prioritized, t) && t < |s.threads| && IsWorker(s.threads[t]) && !s.threads[t].WSleep?
    requires WorkerStep(s, prioritized, t, rest[0])
    ensures SoloWorker([s] + rest, prioritized, t)
  {
    var path := [s] + rest;
    forall m | 0 < m < |path| ensures AwakeStep(path[m - 1], prioritized, t, path[m]) {
      if m > 1 {
        assert AwakeStep(rest[m - 2], prioritized, t, rest[m - 1]);
      }
    }
  }

  // ----- calls -----

  /** What a call has done when it lets go of the mutex. */
  predicate TookEffect(s: State, t: nat, a: Action, s': State)
    requires t < |s.threads| == |s'.threads|
  {
    match a
    case Detach(_) =>
      Ids(s'.queue) == Ids(s.queue) + {s.submitted} && s'.submitted == s.submitted + 1 && s'.threads[t].CNotifyOne?
    case Pause => s'.paused && s'.queue == s.queue && s'.threads[t].CIdle?
    case Unpause => !s'.paused && s'.queue == s.queue && s'.threads[t].CNotifyAll?
    case Purge => s'.queue == [] && s'.purged == s.purged + Ids(s.queue) && s'.threads[t].CIdle?
    case Wait => s'.waiting && s'.queue == s.queue && s'.threads[t].CWaitTest?
    case Go => true
  }

  lemma IdsWith(queue: seq<Task>, task: Task)
    ensures Ids(queue + [task]) == Ids(queue) + {task.id}
  {
    var more := queue + [task];
    assert more[|queue|] == task;
    forall id | id in Ids(queue) ensures id in Ids(more) {
      var j :| 0 <= j < |queue| && queue[j].id == id;
      assert more[j].id == id;
    }
  }

  /** With the mutex free a client may make any of the calls, and it takes effect. */
  lemma CallsTakeEffect(s: State, prioritized: bool, t: nat, a: Action, s': State)
    requires t < |s.threads| && s.threads[t].CIdle? && MutexFree(s) && !a.Go?
    ensures exists s1 :: Step(s, prioritized, t, a, s1)
    ensures Step(s, prioritized, t, a, s') ==> |s'.threads| == |s.threads| && TookEffect(s, t, a, s')
  {
    var s1 :=
      match a
      case Detach(priority) => Move(s, t, CNotifyOne).(
        queue := s.queue + [Task(s.submitted, priority)], submitted := s.submitted + 1)
      case Pause => s.(paused := true)
      case Unpause => Move(s, t, CNotifyAll).(paused := false)
      case Purge => s.(queue := [], purged := s.purged + Ids(s.queue))
      case Wait => Move(s, t, CWaitTest).(waiting := true)
      case Go => s;
    assert ClientStep(s, t, a, s1);
    assert Step(s, prioritized, t, a, s1);
    if a.Detach? {
      IdsWith(s.queue, Task(s.submitted, a.priority));
    }
  }

  function Asleep(pc: Pc): int { if pc.WSleep? then 1 else 0 }

  /** A notification wakes one sleeping worker, if there is any; that of `unpause` all. */
  lemma NotificationsWake(s: State, prioritized: bool, t: nat, a: Action, s': State)
    requires t < |s.threads| && (s.threads[t].CNotifyOne? || s.threads[t].CNotifyAll?)
    requires Step(s, prioritized, t, a, s')
    ensures |s'.threads| == |s.threads| && s'.threads[t].CIdle?
    ensures Sum(s'.threads, Asleep)
      == if s.threads[t].CNotifyAll? || Sum(s.threads, Asleep) == 0 then 0 else Sum(s.threads, Asleep) - 1
  {
    if s.threads[t].CNotifyAll? {
      SumConstant(s'.threads, Asleep, 0);
    } else if SomeoneAt(s.threads, WSleep) {
      OneWakes(s, t, a, s');
    } else {
      SumConstant(s.threads, Asleep, 0);
      SumUpdate(s.threads, t, CIdle, Asleep);
    }
  }

  lemma OneWakes(s: State, t: nat, a: Action, s': State)
    requires t < |s.threads| && s.threads[t].CNotifyOne? && SomeoneAt(s.threads, WSleep) && ClientStep(s, t, a, s')
    ensures |s'.threads| == |s.threads| && s'.threads[t].CIdle?
    ensures Sum(s.threads, Asleep) > 0 && Sum(s'.threads, Asleep) == Sum(s.threads, Asleep) - 1
  {
    var u :| 0 <= u < |s.threads| && s.threads[u].WSleep? && s' == Move(Move(s, u, WWoken), t, CIdle);
    WakingOneMoves(s.threads, u, t, CIdle, Asleep);
    SumNonNegative(s.threads, Asleep);
  }

  /** Inside `wait`: with the mutex the condition decides, without it the waiter can get
      it back as soon as it is free. */
  lemma WaiterGoesOn(s: State, prioritized: bool, t: nat, a: Action, s': State)
    requires t < |s.threads|
    ensures s.threads[t].CWaitTest? && Step(s, prioritized, t, a, s') ==>
      |s'.threads| == |s.threads| && s'.threads[t] == if Done(s) then CIdle else CWaitSleep
    ensures s.threads[t].CWaitTest? ==> exists s1 :: Step(s, prioritized, t, a, s1)
    ensures s.threads[t].CWaitWoken? && MutexFree(s) ==> Step(s, prioritized, t, a, Move(s, t, CWaitTest))
  {
    var s1 := if Done(s) then Move(s, t, CIdle).(waiting := false) else Move(s, t, CWaitSleep);
    assert s.threads[t].CWaitTest? ==> Step(s, prioritized, t, a, s1);
  }

  /** When a call of `wait` returns, no task is running, and in a pool that is not paused
      every task submitted so far has finished or been purged. */
  lemma ReturnMeansDone(run: seq<State>, prioritized: bool, i: nat, t: nat, id: nat)
    requires IsRun(run, prioritized) && i + 1 < |run| && t < |run[i].threads| == |run[i + 1].threads|
    requires run[i].threads[t].CWaitTest? && run[i + 1].threads[t].CIdle? && id < run[i + 1].submitted
    ensures WRun(id) !in run[i + 1].threads
    ensures !run[i + 1].paused ==> id in run[i + 1].finished || id in run[i + 1].purged
  {
    assert StepAt(run, prioritized, i);
    DoneOnReturn(run[i], prioritized, t, run[i + 1]);
    WaitMeansDone(run, prioritized, i + 1, id);
  }

  lemma DoneOnReturn(s: State, prioritized: bool, t: nat, s': State)
    requires Next(s, prioritized, s') && t < |s.threads| == |s'.threads|
    requires s.threads[t].CWaitTest? && s'.threads[t].CIdle?
    ensures Done(s')
  {
    var u: nat, a :| Step(s, prioritized, u, a, s');
    if u != t {
      OthersStay(s, prioritized, u, a, s', t);
    }
  }
}
