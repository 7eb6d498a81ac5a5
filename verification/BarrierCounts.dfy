/** The counts of the barrier under loops of arrive and wait.  A task that leaves early comes back
    to the same phase once, so that it takes two places there; tasks that have finished leave
    theirs. */
module BarrierCounts {
  import opened TaskSums
  import opened Runs
  import opened WaitProtocol
  import opened Barrier
  import opened BarrierLoops

  /** Rounds that the task has still to begin. */
  function Left(task: Task): int {
    |task.todo| / 2
  }

  /** Arrivals that a task of r rounds has made when phase p opens: one in phase 0 and, to fill the
      phases after it, two in each as long as it has them. */
  function Base(p: nat, r: nat): int {
    if p == 0 then 0 else Min(r, 2 * p - 1)
  }

  function Made(p: nat, r: nat, task: Task): int {
    r - Left(task) - Base(p, r)
  }

  function Most(p: nat, r: nat): int {
    Base(p + 1, r) - Base(p, r)
  }

  function Bases(p: nat): nat -> int {
    (r: nat) => Base(p, r)
  }

  function Mosts(p: nat): nat -> int {
    (r: nat) => Most(p, r)
  }

  function One(r: nat): int {
    1
  }

  function Value(r: nat): int {
    r
  }

  /** Arrivals begun in phase p by all tasks together. */
  function MadeByAll(p: nat, rounds: seq<nat>, tasks: seq<Task>): int {
    Sum(rounds, Value) - Sum(tasks, Left) - Sum(rounds, Bases(p))
  }

  /** Where nobody makes more than `most`, all reach it only if each of them does. */
  lemma {:induction false} MadeAtMost(p: nat, rounds: seq<nat>, tasks: seq<Task>, most: nat -> int)
    requires |rounds| == |tasks|
    requires forall t :: 0 <= t < |tasks| ==> Made(p, rounds[t], tasks[t]) <= most(rounds[t])
    ensures MadeByAll(p, rounds, tasks) <= Sum(rounds, most)
    ensures MadeByAll(p, rounds, tasks) == Sum(rounds, most) ==>
              forall t :: 0 <= t < |tasks| ==> Made(p, rounds[t], tasks[t]) == most(rounds[t])
  {
    if tasks != [] {
      var n := |tasks| - 1;
      MadeAtMost(p, rounds[..n], tasks[..n], most);
      assert Made(p, rounds[n], tasks[n]) <= most(rounds[n]);
    }
  }

  /** Two arrivals each in the phase after the first, as far as the tasks have them, fit it. */
  predicate Fits(rounds: seq<nat>) {
    && (forall t :: 0 <= t < |rounds| ==> 1 <= rounds[t])
    && Sum(rounds, Mosts(1)) <= |rounds|
  }

  lemma {:induction false} LaterMostIsLess(rounds: seq<nat>)
    ensures Sum(rounds, Mosts(2)) <= Sum(rounds, Mosts(1))
  {
    if rounds != [] {
      LaterMostIsLess(rounds[..|rounds| - 1]);
    }
  }

  lemma MostFits(rounds: seq<nat>, p: nat)
    requires Fits(rounds) && p <= 2
    ensures Sum(rounds, Mosts(p)) <= |rounds|
  {
    if p == 0 {
      SumAtMost(rounds, 1, Mosts(0));
    } else if p == 2 {
      LaterMostIsLess(rounds);
    }
  }

  // Where a task can be

  /** With a token of phase k the task has arrived in it, in phase p no more than `early` times
      before. */
  predicate MadeFor(p: nat, early: nat, made: int, k: nat) {
    k <= p && if k < p then made == 0 else 1 <= made <= early + 1
  }

  predicate LoopTask(p: nat, early: nat, r: nat, task: Task) {
    match task.pc
    case Ready =>
      if task.token.None? then IsLoop(task.todo) && 0 <= Made(p, r, task) <= early
      else MidRound(task.todo) && MadeFor(p, early, Made(p, r, task), task.token.value)
    case Dropped => false
    case Loaded(n, k) =>
      n == 1 && k == p && task.token == None && MidRound(task.todo) && MadeFor(p, early, Made(p, r, task), k)
    case Last(stage, k) =>
      && task.token == None && MidRound(task.todo) && MadeFor(p, early, Made(p, r, task), k)
      && (Announced(stage) <==> k < p)
    case Testing(k) => task.token == None && IsLoop(task.todo) && MadeFor(p, early, Made(p, r, task), k)
    case Waiting(k, _) => task.token == None && IsLoop(task.todo) && MadeFor(p, early, Made(p, r, task), k)
  }

  /** How many times a task can have left the current phase: not at all before its waiters have
      been popped. */
  function Early(s: State): nat {
    if s.phase == 0 || NotifyPending(s) then 0 else 1
  }

  predicate InPlace(s: State, rounds: seq<nat>) {
    && |rounds| == |s.tasks|
    && forall t :: 0 <= t < |s.tasks| ==> LoopTask(s.phase, Early(s), rounds[t], s.tasks[t])
  }

  predicate Popped(q: Waiters, w: TaskId) {
    exists r :: 0 <= r < |q.local| && w in q.local[r]
  }

  predicate PoppedOnce(s: State, rounds: seq<nat>) {
    && |rounds| == |s.tasks|
    && forall w: TaskId :: w < |s.tasks| && Popped(s.q, w) ==> Made(s.phase, rounds[w], s.tasks[w]) <= Early(s)
  }

  predicate OneNotifier(s: State) {
    forall u, v :: 0 <= u < |s.tasks| && 0 <= v < |s.tasks| && IsNotify(s.tasks[u]) && IsNotify(s.tasks[v]) ==> u == v
  }

  /** The task that closed phase 1 does not wake itself. */
  predicate Closer(s: State, rounds: seq<nat>, c: TaskId) {
    && c < |s.tasks| == |rounds| && 2 <= rounds[c] && LoopTask(2, 0, rounds[c], s.tasks[c])
    && (Popped(s.q, c) ==> Made(2, rounds[c], s.tasks[c]) == 0)
    && forall u :: 0 <= u < |s.tasks| && IsNotify(s.tasks[u]) ==> u == c
  }

  predicate CloserKnown(s: State, rounds: seq<nat>) {
    s.phase == 2 ==> exists c: TaskId :: c < |s.tasks| && Closer(s, rounds, c)
  }

  /** What is expected is what has not been begun, and what has been begun and not counted. */
  predicate CountTotals(expected: int, opening: int, pending: int, made: int, n: int) {
    if opening == 0 then expected == n - made + pending else made == n && pending == 0
  }

  predicate TotalsOk(s: State, rounds: seq<nat>) {
    CountTotals(s.expected, Sum(s.tasks, Opening), Sum(s.tasks, Pending), MadeByAll(s.phase, rounds, s.tasks),
                |s.tasks|)
  }

  predicate LoopCounts(s: State, rounds: seq<nat>) {
    && |s.tasks| == s.initial && s.phase <= 2
    && InPlace(s, rounds) && PoppedOnce(s, rounds) && OneNotifier(s) && CloserKnown(s, rounds) && TotalsOk(s, rounds)
  }

  ghost predicate LoopInv(s: State, rounds: seq<nat>) {
    Fits(rounds) && Inv(s) && LoopCounts(s, rounds)
  }

  // There is room

  lemma {:induction false} LoopIsEven(todo: seq<Job>)
    requires IsLoop(todo)
    ensures |todo| % 2 == 0
  {
    if todo != [] {
      LoopIsEven(todo[2..]);
    }
  }

  lemma TaskLimit(p: nat, early: nat, r: nat, task: Task)
    requires LoopTask(p, early, r, task) && 1 <= r && early <= 1 && (p == 0 ==> early == 0)
    ensures 0 <= Made(p, r, task) <= Most(p, r) && Made(p, r, task) <= early + 1
    ensures BeginsArrival(task) ==> Made(p, r, task) < Most(p, r) && task.todo[0] == Arrive(1) && task.token == None
  {
    if BeginsArrival(task) {
      assert task.token == None;
      LoopHead(task.todo);
    }
  }

  lemma NobodyOverLimit(s: State, rounds: seq<nat>)
    requires LoopCounts(s, rounds) && Fits(rounds)
    ensures MadeByAll(s.phase, rounds, s.tasks) <= Sum(rounds, Mosts(s.phase)) <= |rounds|
    ensures MadeByAll(s.phase, rounds, s.tasks) == |rounds| ==>
              forall t :: 0 <= t < |s.tasks| ==> Made(s.phase, rounds[t], s.tasks[t]) == Most(s.phase, rounds[t])
  {
    MostFits(rounds, s.phase);
    forall t | 0 <= t < |s.tasks| ensures Made(s.phase, rounds[t], s.tasks[t]) <= Mosts(s.phase)(rounds[t]) {
      TaskLimit(s.phase, Early(s), rounds[t], s.tasks[t]);
    }
    MadeAtMost(s.phase, rounds, s.tasks, Mosts(s.phase));
    assert forall t :: 0 <= t < |s.tasks| ==> Mosts(s.phase)(rounds[t]) == Most(s.phase, rounds[t]);
  }

  /** Every arrival these programs begin fits. */
  lemma LoopAllowed(s: State, t: TaskId, rounds: seq<nat>)
    requires LoopCounts(s, rounds) && Fits(rounds) && t < |s.tasks|
    ensures ClientAllows(s, t)
  {
    if BeginsArrival(s.tasks[t]) {
      TaskLimit(s.phase, Early(s), rounds[t], s.tasks[t]);
      NobodyOverLimit(s, rounds);
    }
  }

  // Steps within a phase

  lemma NotifierAfter(s: State, t: TaskId, s': State)
    requires Sized(s) && t < |s.tasks| && WokenOk(s, t) && Next(s, t) == Some(s')
    ensures |s'.tasks| == |s.tasks|
    ensures forall v :: 0 <= v < |s.tasks| && v != t ==> (IsNotify(s'.tasks[v]) <==> IsNotify(s.tasks[v]))
    ensures IsNotify(s'.tasks[t]) <==> IsStoring(s.tasks[t])
  {
    StepShape(s, t, s');
  }

  lemma NotifyMeansLater(s: State, t: TaskId)
    requires CountsOk(s) && t < |s.tasks| && s.tasks[t].pc.Last? && Announced(s.tasks[t].pc.stage)
    ensures s.tasks[t].pc.phase < s.phase
  {
    assert LastOk(s, s.tasks[t].pc.stage, s.tasks[t].pc.phase);
  }

  lemma EarlyAfter(s: State, t: TaskId, s': State)
    requires QueueOk(s) && CountsOk(s) && OneNotifier(s) && t < |s.tasks| && Next(s, t) == Some(s')
    requires !IsStoring(s.tasks[t])
    ensures s'.phase == s.phase && OneNotifier(s') && |s'.tasks| == |s.tasks|
    ensures if IsNotify(s.tasks[t]) then Early(s) == 0 && Early(s') == 1 else Early(s') == Early(s)
  {
    WokenTaskWaits(s, t);
    NotifierAfter(s, t, s');
    NextPhaseMoves(s, t, s');
    if IsNotify(s.tasks[t]) {
      NotifyMeansLater(s, t);
    } else {
      NotifyStaysPending(s, t, s');
      if NotifyPending(s') {
        var v :| 0 <= v < |s'.tasks| && IsNotify(s'.tasks[v]);
        assert IsNotify(s.tasks[v]);
      }
    }
  }

  lemma CallInPlace(s: State, t: TaskId, s': State, early: nat, r: nat)
    requires t < |s.tasks| && s.tasks[t].pc == Ready && Call(s, t) == Some(s')
    requires LoopTask(s.phase, early, r, s.tasks[t])
    ensures |s'.tasks| == |s.tasks| && LoopTask(s.phase, early, r, s'.tasks[t])
    ensures s'.expected == s.expected && s'.initial == s.initial
    ensures var task, task' := s.tasks[t], s'.tasks[t];
            && Opening(task') == 0
            && (if BeginsArrival(task) then Left(task') == Left(task) - 1 && Pending(task') == 1
                else Left(task') == Left(task) && Pending(task') == 0)
  {
    var todo := s.tasks[t].todo;
    if BeginsArrival(s.tasks[t]) {
      assert s.tasks[t].token == None;
      LoopHead(todo);
      LoopIsEven(todo);
    } else {
      assert s.tasks[t].token.Some?;
      LoopIsEven(todo[1..]);
    }
  }

  /** What a step of a task on its own account does to it. */
  lemma ActorInPlace(s: State, t: TaskId, s': State, early: nat, r: nat)
    requires Sized(s) && t < |s.tasks| && s.q.local[t] == [] && Next(s, t) == Some(s') && s.tasks[t].pc != Ready
    requires LoopTask(s.phase, early, r, s.tasks[t]) && !IsStoring(s.tasks[t]) && |s'.tasks| == |s.tasks|
    requires InWait(s.tasks[t].pc).Some? && s'.tasks[t].pc == Ready ==> InWait(s.tasks[t].pc).value < s.phase
    ensures LoopTask(s.phase, early, r, s'.tasks[t]) && s'.tasks[t].todo == s.tasks[t].todo && s'.initial == s.initial
  {
  }

  lemma ActorSums(s: State, t: TaskId, s': State)
    requires t < |s.tasks| == |s'.tasks| && s'.tasks == s.tasks[t := s'.tasks[t]]
    ensures Sum(s'.tasks, Opening) == Sum(s.tasks, Opening) - Opening(s.tasks[t]) + Opening(s'.tasks[t])
    ensures Sum(s'.tasks, Pending) == Sum(s.tasks, Pending) - Pending(s.tasks[t]) + Pending(s'.tasks[t])
    ensures Sum(s'.tasks, Left) == Sum(s.tasks, Left) - Left(s.tasks[t]) + Left(s'.tasks[t])
    ensures 0 <= Opening(s.tasks[t]) <= Sum(s.tasks, Opening) && Pending(s.tasks[t]) <= Sum(s.tasks, Pending)
  {
    SumUpdate(s.tasks, t, s'.tasks[t], Opening);
    SumUpdate(s.tasks, t, s'.tasks[t], Pending);
    SumUpdate(s.tasks, t, s'.tasks[t], Left);
    SumAtLeast(s.tasks, t, Opening);
    SumAtLeast(s.tasks, t, Pending);
  }

  lemma ActorTotals(s: State, t: TaskId, s': State, opening: int, pending: int, made: int, made': int)
    requires Sized(s) && t < |s.tasks| && s.q.local[t] == [] && Next(s, t) == Some(s') && |s'.tasks| == |s.tasks|
    requires CountTotals(s.expected, opening, pending, made, |s.tasks|) && !IsStoring(s.tasks[t])
    requires s.tasks[t].pc != Dropped && (s.tasks[t].pc.Loaded? ==> s.tasks[t].pc.update == 1 && opening == 0)
    requires 0 <= Opening(s.tasks[t]) <= opening <= 1 && Pending(s.tasks[t]) <= pending
    requires opening == 0 ==> pending <= s.expected
    requires s.tasks[t].pc == Ready ==> Pending(s'.tasks[t]) == made' - made && Opening(s'.tasks[t]) == 0
    requires s.tasks[t].pc == Ready && made' != made ==> opening == 0
    requires s.tasks[t].pc != Ready ==> made' == made
    ensures CountTotals(s'.expected, opening - Opening(s.tasks[t]) + Opening(s'.tasks[t]),
                        pending - Pending(s.tasks[t]) + Pending(s'.tasks[t]), made', |s.tasks|)
  {
  }

  /** The task that acts keeps its place. */
  lemma ActorStays(s: State, t: TaskId, s': State, rounds: seq<nat>)
    requires LoopInv(s, rounds) && t < |s.tasks| && Next(s, t) == Some(s') && s.q.local[t] == []
    requires !IsStoring(s.tasks[t])
    ensures |s'.tasks| == |s.tasks| && s'.tasks == s.tasks[t := s'.tasks[t]]
    ensures s'.phase == s.phase && s'.initial == s.initial
    ensures forall early: nat :: LoopTask(s.phase, early, rounds[t], s.tasks[t]) ==>
              LoopTask(s.phase, early, rounds[t], s'.tasks[t])
    ensures LeftAfter(s.tasks[t], s'.tasks[t])
  {
    TaskFacts(s, t, rounds);
    ActorMoves(s, t, s');
    ActorPlaces(s, t, s', rounds[t]);
  }

  lemma TaskFacts(s: State, t: TaskId, rounds: seq<nat>)
    requires LoopInv(s, rounds) && t < |s.tasks|
    ensures ClientAllows(s, t) && TokensRecent(s) && TaskOk(s, s.tasks[t])
    ensures t < |rounds| && LoopTask(s.phase, Early(s), rounds[t], s.tasks[t])
    ensures s.tasks[t].pc != Dropped && (s.tasks[t].pc.Loaded? ==> s.tasks[t].pc.update == 1)
  {
    LoopAllowed(s, t, rounds);
    assert LoopTask(s.phase, Early(s), rounds[t], s.tasks[t]);
  }

  lemma ActorMoves(s: State, t: TaskId, s': State)
    requires QueueOk(s) && CountsOk(s) && TokensRecent(s) && t < |s.tasks| && TaskOk(s, s.tasks[t])
    requires Next(s, t) == Some(s') && s.q.local[t] == [] && !IsStoring(s.tasks[t])
    ensures |s'.tasks| == |s.tasks| && s'.tasks == s.tasks[t := s'.tasks[t]] && s'.phase == s.phase
    ensures InWait(s.tasks[t].pc).Some? && s'.tasks[t].pc == Ready ==> InWait(s.tasks[t].pc).value < s.phase
  {
    WokenTaskWaits(s, t);
    StepShape(s, t, s');
    NextPhaseMoves(s, t, s');
    if InWait(s.tasks[t].pc).Some? {
      LeaverIsLater(s, t, s');
    }
  }

  lemma ActorKeepsTotals(s: State, t: TaskId, s': State, rounds: seq<nat>)
    requires LoopInv(s, rounds) && t < |s.tasks| && Next(s, t) == Some(s') && s.q.local[t] == []
    requires !IsStoring(s.tasks[t])
    ensures TotalsOk(s', rounds)
  {
    TaskFacts(s, t, rounds);
    ActorStays(s, t, s', rounds);
    TotalsAfter(s, t, s', MadeByAll(s.phase, rounds, s.tasks));
    assert MadeByAll(s'.phase, rounds, s'.tasks)
        == MadeByAll(s.phase, rounds, s.tasks) + Sum(s.tasks, Left) - Sum(s'.tasks, Left);
  }

  lemma TotalsAfter(s: State, t: TaskId, s': State, made: int)
    requires CountsOk(s) && Sized(s) && t < |s.tasks| && TaskOk(s, s.tasks[t]) && ClientAllows(s, t)
    requires Next(s, t) == Some(s') && s.q.local[t] == [] && !IsStoring(s.tasks[t]) && |s'.tasks| == |s.tasks|
    requires s'.tasks == s.tasks[t := s'.tasks[t]] && LeftAfter(s.tasks[t], s'.tasks[t])
    requires s.tasks[t].pc != Dropped && (s.tasks[t].pc.Loaded? ==> s.tasks[t].pc.update == 1)
    requires CountTotals(s.expected, Sum(s.tasks, Opening), Sum(s.tasks, Pending), made, |s.tasks|)
    ensures CountTotals(s'.expected, Sum(s'.tasks, Opening), Sum(s'.tasks, Pending),
                        made + Sum(s.tasks, Left) - Sum(s'.tasks, Left), |s.tasks|)
  {
    LoadedSeesOpen(s, t);
    ActorSums(s, t, s');
    ActorTotals(s, t, s', Sum(s.tasks, Opening), Sum(s.tasks, Pending), made,
                made + Left(s.tasks[t]) - Left(s'.tasks[t]));
  }

  lemma LoadedSeesOpen(s: State, t: TaskId)
    requires CountsOk(s) && t < |s.tasks| && TaskOk(s, s.tasks[t])
    ensures s.tasks[t].pc.Loaded? ==> Sum(s.tasks, Opening) == 0
  {
    if s.tasks[t].pc.Loaded? {
      LoadedMeansOpen(s, t);
    }
  }

  /** A call takes one round from what is left just when it begins an arrival. */
  predicate LeftAfter(task: Task, task': Task) {
    if task.pc != Ready then Left(task') == Left(task)
    else
      && Opening(task') == 0 && Pending(task') == Left(task) - Left(task')
      && (Left(task) != Left(task') ==> BeginsArrival(task))
  }

  lemma ActorPlaces(s: State, t: TaskId, s': State, r: nat)
    requires Sized(s) && t < |s.tasks| && s.q.local[t] == [] && Next(s, t) == Some(s') && |s'.tasks| == |s.tasks|
    requires !IsStoring(s.tasks[t]) && LoopTask(s.phase, Early(s), r, s.tasks[t])
    requires InWait(s.tasks[t].pc).Some? && s'.tasks[t].pc == Ready ==> InWait(s.tasks[t].pc).value < s.phase
    ensures forall early: nat :: LoopTask(s.phase, early, r, s.tasks[t]) ==> LoopTask(s.phase, early, r, s'.tasks[t])
    ensures LeftAfter(s.tasks[t], s'.tasks[t]) && s'.initial == s.initial
  {
    forall early: nat | LoopTask(s.phase, early, r, s.tasks[t]) ensures LoopTask(s.phase, early, r, s'.tasks[t]) {
      if s.tasks[t].pc == Ready {
        CallInPlace(s, t, s', early, r);
      } else {
        ActorInPlace(s, t, s', early, r);
      }
    }
    if s.tasks[t].pc == Ready {
      CallInPlace(s, t, s', Early(s), r);
    } else {
      ActorInPlace(s, t, s', Early(s), r);
    }
  }

  /** A task leaves its wait by itself only when the phase has moved on. */
  lemma LeaverIsLater(s: State, t: TaskId, s': State)
    requires QueueOk(s) && CountsOk(s) && t < |s.tasks| && TaskOk(s, s.tasks[t]) && TokensRecent(s)
    requires InWait(s.tasks[t].pc).Some? && Next(s, t) == Some(s')
    ensures |s'.tasks| == |s.tasks| && (s'.tasks[t].pc == Ready ==> InWait(s.tasks[t].pc).value < s.phase)
  {
    WaitShape(s, t, s');
    if s.tasks[t].pc.Waiting? {
      WaiterToken(s, t, s');
    } else {
      BytesDecide(s.tasks[t].pc.phase, s.phase);
    }
  }

  lemma MoreEarly(p: nat, early: nat, early': nat, r: nat, task: Task)
    requires LoopTask(p, early, r, task) && early <= early'
    ensures LoopTask(p, early', r, task)
  {
  }

  /** Who is in a local list after a step of a task that wakes nobody. */
  lemma PoppedAfter(s: State, t: TaskId, s': State, w: TaskId)
    requires QueueOk(s) && t < |s.tasks| && Next(s, t) == Some(s') && Popped(s'.q, w)
    ensures Popped(s.q, w) || (IsNotify(s.tasks[t]) && w < |s.tasks| && s.tasks[w].pc.Waiting? && w != t)
  {
    var r :| 0 <= r < |s'.q.local| && w in s'.q.local[r];
    if IsNotify(s.tasks[t]) {
      NotifyQueueOk(s, t, s');
      if w !in s.q.local[r] {
        ListedIsParked(s.q, PhasesOf(s.tasks), w);
      }
    } else {
      LocalListsShrink(s, t, s');
    }
  }

  lemma PoppedStays(s: State, t: TaskId, w: TaskId)
    requires QueueOk(s) && t < |s.tasks| && s.q.local[t] == [] && Popped(s.q, w) && w == t
    ensures s.tasks[t].pc.Waiting? && s.tasks[t].pc.at == Parked
  {
    ListedIsParked(s.q, PhasesOf(s.tasks), w);
  }

  lemma ParkedDoesNothing(s: State, t: TaskId)
    requires Sized(s) && t < |s.tasks| && s.tasks[t].pc.Waiting? && s.tasks[t].pc.at == Parked
    ensures Next(s, t) == None
  {
  }

  lemma ActorPopped(s: State, t: TaskId, s': State, rounds: seq<nat>)
    requires LoopInv(s, rounds) && t < |s.tasks| && Next(s, t) == Some(s') && s.q.local[t] == []
    requires !IsStoring(s.tasks[t])
    ensures PoppedOnce(s', rounds)
  {
    ActorStays(s, t, s', rounds);
    EarlyAfter(s, t, s');
    forall w: TaskId | w < |s'.tasks| && Popped(s'.q, w)
      ensures Made(s'.phase, rounds[w], s'.tasks[w]) <= Early(s')
    {
      PoppedAfter(s, t, s', w);
      if w == t {
        PoppedStays(s, t, w);
        ParkedDoesNothing(s, t);
      }
      TaskLimit(s.phase, Early(s), rounds[w], s.tasks[w]);
    }
  }

  lemma ActorCloser(s: State, t: TaskId, s': State, rounds: seq<nat>, c: TaskId)
    requires LoopInv(s, rounds) && t < |s.tasks| && Next(s, t) == Some(s') && s.q.local[t] == []
    requires !IsStoring(s.tasks[t])
    requires s.phase == 2 && Closer(s, rounds, c)
    ensures Closer(s', rounds, c)
  {
    ActorStays(s, t, s', rounds);
    WokenTaskWaits(s, t);
    NotifierAfter(s, t, s');
    CloserNotPopped(s, t, s', rounds, c);
    assert LoopTask(s.phase, 0, rounds[c], s.tasks[c]);
  }

  lemma CloserNotPopped(s: State, t: TaskId, s': State, rounds: seq<nat>, c: TaskId)
    requires QueueOk(s) && t < |s.tasks| && Next(s, t) == Some(s') && Closer(s, rounds, c)
    ensures Popped(s'.q, c) ==> Popped(s.q, c) && (s.q.local[t] == [] ==> c != t)
  {
    if Popped(s'.q, c) {
      PoppedAfter(s, t, s', c);
      if c == t && s.q.local[t] == [] {
        PoppedStays(s, t, c);
        ParkedDoesNothing(s, t);
      }
    }
  }

  lemma ActorKeepsCounts(s: State, t: TaskId, s': State, rounds: seq<nat>)
    requires LoopInv(s, rounds) && t < |s.tasks| && Next(s, t) == Some(s') && s.q.local[t] == []
    requires !IsStoring(s.tasks[t])
    ensures LoopCounts(s', rounds)
  {
    ActorStays(s, t, s', rounds);
    EarlyAfter(s, t, s');
    ActorKeepsTotals(s, t, s', rounds);
    ActorPopped(s, t, s', rounds);
    if s.phase == 2 {
      var c: TaskId :| c < |s.tasks| && Closer(s, rounds, c);
      ActorCloser(s, t, s', rounds, c);
    }
    forall u | 0 <= u < |s'.tasks| ensures LoopTask(s'.phase, Early(s'), rounds[u], s'.tasks[u]) {
      MoreEarly(s.phase, Early(s), Early(s'), rounds[u], s'.tasks[u]);
    }
  }

  // Waking

  lemma WokenInPlace(p: nat, early: nat, r: nat, task: Task)
    requires LoopTask(p, early, r, task) && task.pc.Waiting? && Made(p, r, task) <= early
    ensures LoopTask(p, early, r, task.(pc := Ready))
  {
  }

  lemma WokenKeepsCounts(s: State, t: TaskId, s': State, rounds: seq<nat>)
    requires LoopInv(s, rounds) && t < |s.tasks| && Next(s, t) == Some(s') && s.q.local[t] != []
    ensures LoopCounts(s', rounds)
  {
    WokenTaskWaits(s, t);
    WokenShape(s, t, s');
    EarlyAfter(s, t, s');
    var w := s.q.local[t][0];
    assert Popped(s.q, w);
    WokenInPlace(s.phase, Early(s), rounds[w], s.tasks[w]);
    WokenSums(s.tasks, w, s'.tasks[w]);
    WokenPopped(s, t, s', rounds);
    if s.phase == 2 {
      var c: TaskId :| c < |s.tasks| && Closer(s, rounds, c);
      WokenCloser(s, t, s', rounds, c);
    }
  }

  lemma WokenShape(s: State, t: TaskId, s': State)
    requires Sized(s) && t < |s.tasks| && WokenOk(s, t) && s.q.local[t] != [] && Next(s, t) == Some(s')
    ensures var w := s.q.local[t][0];
            && s' == s.(q := DropFront(s.q, t), tasks := s.tasks[w := s.tasks[w].(pc := Ready)])
            && s.tasks[w].pc.Waiting?
  {
    StepShape(s, t, s');
  }

  lemma WokenSums(tasks: seq<Task>, w: TaskId, task: Task)
    requires w < |tasks| && tasks[w].pc.Waiting? && task == tasks[w].(pc := Ready)
    ensures Sum(tasks[w := task], Opening) == Sum(tasks, Opening)
    ensures Sum(tasks[w := task], Pending) == Sum(tasks, Pending)
    ensures Sum(tasks[w := task], Left) == Sum(tasks, Left)
  {
    SumUpdate(tasks, w, task, Opening);
    SumUpdate(tasks, w, task, Pending);
    SumUpdate(tasks, w, task, Left);
  }

  lemma WokenPopped(s: State, t: TaskId, s': State, rounds: seq<nat>)
    requires LoopInv(s, rounds) && t < |s.tasks| && Next(s, t) == Some(s') && s.q.local[t] != []
    ensures PoppedOnce(s', rounds)
  {
    WokenTaskWaits(s, t);
    WokenShape(s, t, s');
    EarlyAfter(s, t, s');
    forall w: TaskId | w < |s'.tasks| && Popped(s'.q, w)
      ensures Made(s'.phase, rounds[w], s'.tasks[w]) <= Early(s')
    {
      PoppedAfter(s, t, s', w);
    }
  }

  lemma WokenCloser(s: State, t: TaskId, s': State, rounds: seq<nat>, c: TaskId)
    requires LoopInv(s, rounds) && t < |s.tasks| && Next(s, t) == Some(s') && s.q.local[t] != []
    requires s.phase == 2 && Closer(s, rounds, c)
    ensures Closer(s', rounds, c)
  {
    WokenTaskWaits(s, t);
    WokenShape(s, t, s');
    NotifierAfter(s, t, s');
    CloserNotPopped(s, t, s', rounds, c);
    if s.q.local[t][0] == c {
      assert Popped(s.q, c);
      WokenInPlace(2, 0, rounds[c], s.tasks[c]);
    }
  }

  // The phase moves on

  /** Phase 2 does not come to an end. */
  lemma CloserShort(s: State, rounds: seq<nat>)
    requires LoopCounts(s, rounds) && Fits(rounds) && s.phase == 2
    ensures MadeByAll(s.phase, rounds, s.tasks) < |rounds|
  {
    var c: TaskId :| c < |s.tasks| && Closer(s, rounds, c);
    forall t | 0 <= t < |s.tasks| ensures Made(2, rounds[t], s.tasks[t]) <= Mosts(1)(rounds[t]) {
      TaskLimit(2, Early(s), rounds[t], s.tasks[t]);
    }
    TaskLimit(2, 0, rounds[c], s.tasks[c]);
    assert Made(2, rounds[c], s.tasks[c]) < Mosts(1)(rounds[c]);
    MadeAtMost(2, rounds, s.tasks, Mosts(1));
  }

  /** Nor does any phase while its predecessor is unannounced. */
  lemma NotifierShort(s: State, rounds: seq<nat>)
    requires LoopInv(s, rounds) && NotifyPending(s)
    ensures MadeByAll(s.phase, rounds, s.tasks) < |rounds|
  {
    var v :| 0 <= v < |s.tasks| && IsNotify(s.tasks[v]);
    NotifyMeansLater(s, v);
    forall t | 0 <= t < |s.tasks| ensures Made(s.phase, rounds[t], s.tasks[t]) <= One(rounds[t]) {
      TaskLimit(s.phase, Early(s), rounds[t], s.tasks[t]);
    }
    assert Made(s.phase, rounds[v], s.tasks[v]) == 0;
    MadeAtMost(s.phase, rounds, s.tasks, One);
    SumAtMost(rounds, 1, One);
  }

  /** When the phase is stored everybody has made all the arrivals that it can make in it. */
  lemma StoringIsFull(s: State, t: TaskId, rounds: seq<nat>)
    requires LoopInv(s, rounds) && t < |s.tasks| && IsStoring(s.tasks[t])
    ensures s.phase <= 1 && !NotifyPending(s) && s.tasks[t].pc.phase == s.phase && s.expected == |rounds|
    ensures Sum(s.tasks, Opening) == 1 && Sum(s.tasks, Pending) == 0
    ensures forall u :: 0 <= u < |s.tasks| ==> Made(s.phase + 1, rounds[u], s.tasks[u]) == 0
  {
    OpenerIsAlone(s, t);
    assert LastOk(s, s.tasks[t].pc.stage, s.tasks[t].pc.phase);
    NobodyOverLimit(s, rounds);
    if s.phase == 2 {
      CloserShort(s, rounds);
    }
    if NotifyPending(s) {
      NotifierShort(s, rounds);
    }
  }

  lemma {:induction false} FullSum(p: nat, rounds: seq<nat>, tasks: seq<Task>)
    requires |rounds| == |tasks| && forall u :: 0 <= u < |tasks| ==> Made(p, rounds[u], tasks[u]) == 0
    ensures MadeByAll(p, rounds, tasks) == 0
  {
    if tasks != [] {
      var n := |tasks| - 1;
      FullSum(p, rounds[..n], tasks[..n]);
      assert Made(p, rounds[n], tasks[n]) == 0;
    }
  }

  lemma NextPhaseInPlace(p: nat, early: nat, r: nat, task: Task)
    requires LoopTask(p, early, r, task) && Made(p + 1, r, task) == 0 && Pending(task) == 0 == Opening(task)
    ensures LoopTask(p + 1, 0, r, task)
  {
  }

  lemma StoreShape(s: State, t: TaskId, s': State)
    requires Sized(s) && t < |s.tasks| && IsStoring(s.tasks[t]) && Next(s, t) == Some(s')
    ensures |s'.tasks| == |s.tasks| && s'.tasks == s.tasks[t := s'.tasks[t]] && s'.q == s.q && s'.initial == s.initial
    ensures s'.expected == s.expected && s'.phase == s.tasks[t].pc.phase + 1
    ensures s'.tasks[t] == s.tasks[t].(pc := Last(Notify, s.tasks[t].pc.phase))
  {
  }

  /** Everybody is new to the phase that `t` stores. */
  predicate StoredBy(s: State, t: TaskId, s': State, rounds: seq<nat>) {
    && t < |s.tasks| == |rounds| == |s'.tasks| && s'.tasks == s.tasks[t := s'.tasks[t]]
    && forall u: TaskId :: u < |s.tasks| ==>
         && LoopTask(s'.phase, 0, rounds[u], s'.tasks[u]) && Made(s'.phase, rounds[u], s'.tasks[u]) == 0
         && Pending(s'.tasks[u]) == 0 == Opening(s'.tasks[u]) && (IsNotify(s'.tasks[u]) <==> u == t)
  }

  lemma StoreInPlace(s: State, t: TaskId, s': State, rounds: seq<nat>)
    requires InPlace(s, rounds) && Sized(s) && t < |s.tasks| && IsStoring(s.tasks[t]) && Next(s, t) == Some(s')
    requires !NotifyPending(s) && s.tasks[t].pc.phase == s.phase
    requires forall u :: 0 <= u < |s.tasks| ==> Made(s.phase + 1, rounds[u], s.tasks[u]) == 0
    requires forall u :: 0 <= u < |s.tasks| && u != t ==> Pending(s.tasks[u]) == 0 == Opening(s.tasks[u])
    ensures StoredBy(s, t, s', rounds)
  {
    StoreShape(s, t, s');
    forall u: TaskId | u < |s.tasks|
      ensures LoopTask(s.phase + 1, 0, rounds[u], s'.tasks[u]) && Made(s.phase + 1, rounds[u], s'.tasks[u]) == 0
      ensures Pending(s'.tasks[u]) == 0 == Opening(s'.tasks[u]) && (IsNotify(s'.tasks[u]) <==> u == t)
    {
      assert LoopTask(s.phase, Early(s), rounds[u], s.tasks[u]) && Made(s.phase + 1, rounds[u], s.tasks[u]) == 0;
      if u != t {
        NextPhaseInPlace(s.phase, Early(s), rounds[u], s.tasks[u]);
      }
    }
  }

  lemma NobodyElseArrives(s: State, t: TaskId)
    requires CountsOk(s) && t < |s.tasks| && Opening(s.tasks[t]) == 1
    ensures forall u :: 0 <= u < |s.tasks| && u != t ==> Pending(s.tasks[u]) == 0 == Opening(s.tasks[u])
  {
    OpenerIsAlone(s, t);
    forall u | 0 <= u < |s.tasks| && u != t ensures Pending(s.tasks[u]) == 0 {
      SumAtLeast(s.tasks, u, Pending);
    }
  }

  lemma StoredCounts(s: State, t: TaskId, s': State, rounds: seq<nat>)
    requires StoredBy(s, t, s', rounds) && 1 <= s'.phase <= 2 && |s'.tasks| == s'.initial == s'.expected
    requires s'.phase == 2 ==> 2 <= rounds[t]
    ensures LoopCounts(s', rounds)
  {
    FullSum(s'.phase, rounds, s'.tasks);
    SumZero(s'.tasks, Opening);
    SumZero(s'.tasks, Pending);
    assert IsNotify(s'.tasks[t]);
    if s'.phase == 2 {
      assert Closer(s', rounds, t);
    }
  }

  lemma StoreKeepsCounts(s: State, t: TaskId, s': State, rounds: seq<nat>)
    requires LoopInv(s, rounds) && t < |s.tasks| && IsStoring(s.tasks[t]) && Next(s, t) == Some(s')
    ensures LoopCounts(s', rounds)
  {
    StoringIsFull(s, t, rounds);
    StoreShape(s, t, s');
    NobodyElseArrives(s, t);
    TaskFacts(s, t, rounds);
    StoreInPlace(s, t, s', rounds);
    StoredCounts(s, t, s', rounds);
  }

  lemma LoopStep(s: State, s': State, rounds: seq<nat>)
    requires LoopInv(s, rounds) && AnySteps(s, s')
    ensures Steps(s, s') && LoopInv(s', rounds)
  {
    var t: TaskId :| t < |s.tasks| && Next(s, t) == Some(s');
    LoopAllowed(s, t, rounds);
    NextKeepsInv(s, t, s');
    if s.q.local[t] != [] {
      WokenKeepsCounts(s, t, s', rounds);
    } else if IsStoring(s.tasks[t]) {
      StoreKeepsCounts(s, t, s', rounds);
    } else {
      ActorKeepsCounts(s, t, s', rounds);
    }
  }

  // Runs

  lemma {:induction false} RoundsLength(r: nat)
    ensures |Rounds(r)| == 2 * r
  {
    if r > 0 {
      RoundsLength(r - 1);
    }
  }

  lemma StartsLoop(s: State, rounds: seq<nat>)
    requires Loops(s, rounds) && Fits(rounds)
    ensures LoopInv(s, rounds)
  {
    InitHasInv(s);
    forall t | 0 <= t < |s.tasks| ensures LoopTask(0, 0, rounds[t], s.tasks[t]) && Made(0, rounds[t], s.tasks[t]) == 0 {
      RoundsAreLoop(rounds[t]);
      RoundsLength(rounds[t]);
    }
    FullSum(0, rounds, s.tasks);
    SumZero(s.tasks, Opening);
    SumZero(s.tasks, Pending);
  }

  lemma LoopRun(run: seq<State>, rounds: seq<nat>)
    requires IsRun(Init, AnySteps, run) && Loops(run[0], rounds) && Fits(rounds)
    ensures IsRun(Init, Steps, run) && LoopInv(run[|run| - 1], rounds)
  {
    var inv := (s: State) => LoopInv(s, rounds);
    StartsLoop(run[0], rounds);
    forall s, s' | inv(s) && AnySteps(s, s') ensures Steps(s, s') && inv(s') {
      LoopStep(s, s', rounds);
    }
    RunStrengthens(Init, AnySteps, Steps, inv, run);
    InvariantHolds(Init, AnySteps, inv, run);
  }

  /** Careful runs keep to the interface. */
  lemma CarefulIsAllowed(run: seq<State>)
    requires IsRun(Init, CarefulSteps, run)
    ensures IsRun(Init, Steps, run)
  {
    forall i | 0 <= i < |run| - 1 ensures Steps(run[i], run[i + 1]) {
      assert CarefulSteps(run[i], run[i + 1]);
    }
  }

  function Once(r: nat): int {
    if r == 1 then 1 else 0
  }

  function Thrice(r: nat): int {
    if r >= 3 then 1 else 0
  }

  /** No more tasks do three rounds or more than do exactly one. */
  predicate SafeCounts(rounds: seq<nat>) {
    || |rounds| <= 1
    || (exists t :: 0 <= t < |rounds| && rounds[t] == 0)
    || Sum(rounds, Thrice) <= Sum(rounds, Once)
  }

  lemma {:induction false} PlacesInPhaseOne(rounds: seq<nat>)
    requires forall t :: 0 <= t < |rounds| ==> 1 <= rounds[t]
    ensures Sum(rounds, Mosts(1)) == |rounds| + Sum(rounds, Thrice) - Sum(rounds, Once)
  {
    if rounds != [] {
      PlacesInPhaseOne(rounds[..|rounds| - 1]);
    }
  }

  /** Such loops keep to the interface by themselves, in every interleaving, so that what holds of
      runs that do holds of all their runs. */
  lemma SafeRunsAreAllowed(run: seq<State>, rounds: seq<nat>)
    requires IsRun(Init, AnySteps, run) && Loops(run[0], rounds) && SafeCounts(rounds)
    ensures IsRun(Init, Steps, run)
  {
    if SafeRounds(rounds) {
      SafeRunsAreCareful(run, rounds);
      CarefulIsAllowed(run);
    } else {
      PlacesInPhaseOne(rounds);
      LoopRun(run, rounds);
    }
  }

  // Who comes to the end

  predicate Done(task: Task) {
    task.pc == Ready && task.todo == []
  }

  predicate AllDone(s: State) {
    forall t :: 0 <= t < |s.tasks| ==> Done(s.tasks[t])
  }

  lemma StuckOpen(s: State)
    requires Inv(s) && Stuck(s)
    ensures HistoryOk(s) && s.arrived[s.phase] == s.opens[s.phase] - s.expected && Sum(s.tasks, Opening) == 0
  {
    StuckLists(s);
  }

  /** A task that has finished, or sleeps in the open phase, has made all its arrivals of it. */
  lemma StuckHasMade(p: nat, early: nat, r: nat, task: Task)
    requires LoopTask(p, early, r, task) && 1 <= r <= 2 && early <= 1 && (p == 0 ==> early == 0)
    requires Finished(task) || IsParkedAt(task, p)
    ensures Made(p, r, task) == Most(p, r) && Pending(task) == 0
    ensures !Done(task) ==> p < 2 && (r == 1 ==> p == 0)
  {
    TaskLimit(p, early, r, task);
    if task.pc == Ready && task.token.None? && task.todo != [] {
      LoopHead(task.todo);
    }
  }

  lemma {:induction false} AllHaveMade(p: nat, r: nat, rounds: seq<nat>, tasks: seq<Task>)
    requires |rounds| == |tasks|
    requires forall t :: 0 <= t < |tasks| ==> rounds[t] == r && Made(p, r, tasks[t]) == Most(p, r) == 1
    ensures MadeByAll(p, rounds, tasks) == |tasks|
  {
    if tasks != [] {
      var n := |tasks| - 1;
      AllHaveMade(p, r, rounds[..n], tasks[..n]);
      assert Made(p, r, tasks[n]) == 1;
    }
  }

  /** With as many rounds for everybody, once or twice, nobody is left behind. */
  lemma EvenStuckIsDone(s: State, rounds: seq<nat>, r: nat)
    requires LoopInv(s, rounds) && 1 <= r <= 2 && Stuck(s)
    requires forall t :: 0 <= t < |rounds| ==> rounds[t] == r
    ensures AllDone(s)
  {
    StuckExactly(s);
    forall t: TaskId | t < |s.tasks|
      ensures Made(s.phase, r, s.tasks[t]) == Most(s.phase, r) && Pending(s.tasks[t]) == 0
      ensures !Done(s.tasks[t]) ==> s.phase < 2 && (r == 1 ==> s.phase == 0) && IsParkedAt(s.tasks[t], s.phase)
    {
      StuckHasMade(s.phase, Early(s), r, s.tasks[t]);
    }
    SumZero(s.tasks, Pending);
    if z :| 0 <= z < |s.tasks| && !Done(s.tasks[z]) {
      AllHaveMade(s.phase, r, rounds, s.tasks);
      StuckOpen(s);
    }
  }
}
