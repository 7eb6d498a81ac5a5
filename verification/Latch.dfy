/** The latch: tasks count it down and wait for zero, in any interleaving. */
module Latch {
  import opened TaskSums
  import opened Runs
  import opened WaitProtocol

  datatype Job = CountDown(update: nat) | Wait | ArriveAndWait(update: nat)

  /** `waits` tells arrive_and_wait from count_down. */
  datatype Pc =
    | Ready                  // between two calls
    | Testing                // wait's own try_wait
    | Waiting(phase: Phase)  // inside wait_if
    | Returning              // at the assertion that ends wait
    | Notify(waits: bool)    // took the counter to zero, resume_all still owed
    | Waking(waits: bool)    // inside do_resume_all

  datatype Task = Task(todo: seq<Job>, pc: Pc)

  datatype State = State(counter: int, q: Waiters, tasks: seq<Task>)

  function SetPc(tasks: seq<Task>, t: TaskId, pc: Pc): seq<Task> {
    if t < |tasks| then tasks[t := tasks[t].(pc := pc)] else tasks
  }

  function AfterCountDown(waits: bool): Pc {
    if waits then Testing else Ready
  }

  function CountDownNext(s: State, t: TaskId, update: nat, waits: bool): State
    requires t < |s.tasks| && s.tasks[t].todo != []
  {
    var pc := if s.counter == update then Notify(waits) else AfterCountDown(waits);
    s.(counter := s.counter - update, tasks := s.tasks[t := Task(s.tasks[t].todo[1..], pc)])
  }

  function Next(s: State, t: TaskId): Option<State>
    requires t < |s.tasks| == |s.q.local|
  {
    match s.tasks[t].pc
    case Ready =>
      if s.tasks[t].todo == [] then None
      else
        (match s.tasks[t].todo[0]
         case CountDown(n) => Some(CountDownNext(s, t, n, false))
         case ArriveAndWait(n) => Some(CountDownNext(s, t, n, true))
         case Wait => Some(s.(tasks := s.tasks[t := Task(s.tasks[t].todo[1..], Testing)])))
    case Testing => Some(s.(tasks := SetPc(s.tasks, t, if s.counter == 0 then Returning else Waiting(FastPath))))
    case Waiting(phase) =>
      (match WaitIf(s.q, t, phase, s.counter != 0)
       case Blocked => None
       case Continue(q, p) => Some(s.(q := q, tasks := SetPc(s.tasks, t, Waiting(p))))
       case Return(q) => Some(s.(q := q, tasks := SetPc(s.tasks, t, Returning))))
    case Returning => Some(s.(tasks := SetPc(s.tasks, t, Ready)))
    case Notify(w) =>
      (match TakeAll(s.q, t)
       case None => None
       case Some(q) => Some(s.(q := q, tasks := SetPc(s.tasks, t, Waking(w)))))
    case Waking(w) =>
      if s.q.local[t] == [] then Some(s.(tasks := SetPc(s.tasks, t, AfterCountDown(w))))
      else Some(s.(q := DropFront(s.q, t), tasks := SetPc(s.tasks, s.q.local[t][0], Returning)))
  }

  // The invariant

  function PhaseOf(task: Task): Option<Phase> {
    if task.pc.Waiting? then Some(task.pc.phase) else None
  }

  function PhasesOf(tasks: seq<Task>): Phases {
    seq(|tasks|, i requires 0 <= i < |tasks| => PhaseOf(tasks[i]))
  }

  function Update(job: Job): int {
    match job
    case CountDown(n) => n
    case ArriveAndWait(n) => n
    case Wait => 0
  }

  /** What the task has still to subtract. */
  function Remaining(task: Task): int {
    Sum(task.todo, Update)
  }

  predicate Notifies(pc: Pc) {
    pc.Notify? || pc.Waking?
  }

  /** Only an open latch lets tasks go. */
  predicate NeedsOpen(pc: Pc) {
    pc == Returning || pc == Waiting(SelfResume) || Notifies(pc)
  }

  predicate SomebodyWaits(s: State) {
    s.q.main != [] || exists t :: 0 <= t < |s.tasks| && s.tasks[t].pc == Waiting(Pushing)
  }

  predicate NotifyPending(s: State) {
    exists t :: 0 <= t < |s.tasks| && s.tasks[t].pc.Notify?
  }

  ghost predicate QueueOk(s: State) {
    && WaitInv(s.q, PhasesOf(s.tasks))
    && forall t :: 0 <= t < |s.tasks| && s.q.local[t] != [] ==> s.tasks[t].pc.Waking?
  }

  predicate CountOk(s: State) {
    && Sum(s.tasks, Remaining) <= s.counter
    && forall t :: 0 <= t < |s.tasks| && NeedsOpen(s.tasks[t].pc) ==> s.counter == 0
  }

  predicate WaitersServed(s: State) {
    SomebodyWaits(s) ==> s.counter > 0 || NotifyPending(s)
  }

  ghost predicate Inv(s: State) {
    QueueOk(s) && CountOk(s) && WaitersServed(s)
  }

  /** The client's side: all updates together do not exceed the initial count. */
  ghost predicate Init(s: State) {
    && s.q == NoWaiters(|s.tasks|)
    && (forall t :: 0 <= t < |s.tasks| ==> s.tasks[t].pc == Ready)
    && Sum(s.tasks, Remaining) <= s.counter
  }

  lemma InitHasInv(s: State)
    requires Init(s)
    ensures Inv(s)
  {
    NoWaitersInv(PhasesOf(s.tasks));
  }

  predicate Sized(s: State) {
    |s.tasks| == |s.q.local|
  }

  /** The task about to be resumed by `t` is parked, and is not `t`. */
  predicate WokenOk(s: State, t: TaskId)
    requires Sized(s) && t < |s.tasks|
  {
    s.q.local[t] != [] ==>
      && s.tasks[t].pc.Waking?
      && var w := s.q.local[t][0]; w < |s.tasks| && w != t && s.tasks[w].pc == Waiting(Parked)
  }

  lemma WokenTaskWaits(s: State, t: TaskId)
    requires QueueOk(s) && t < |s.tasks|
    ensures WokenOk(s, t)
  {
    if s.q.local[t] != [] {
      WakeKeepsInv(s.q, PhasesOf(s.tasks), t);
    }
  }

  lemma PhasesSet(tasks: seq<Task>, t: TaskId, task: Task)
    requires t < |tasks|
    ensures PhasesOf(tasks[t := task]) == PhasesOf(tasks)[t := PhaseOf(task)]
    ensures PhaseOf(task) == PhaseOf(tasks[t]) ==> PhasesOf(tasks[t := task]) == PhasesOf(tasks)
  {
  }

  lemma WaitQueueShape(s: State, t: TaskId, s': State)
    requires Sized(s) && t < |s.tasks| && s.tasks[t].pc.Waiting? && Next(s, t) == Some(s')
    ensures |s'.tasks| == |s.tasks| && s'.tasks == s.tasks[t := s'.tasks[t]] && !s'.tasks[t].pc.Waking?
    ensures s'.q.local == s.q.local && PhaseOf(s.tasks[t]) == Some(s.tasks[t].pc.phase)
    ensures match WaitIf(s.q, t, s.tasks[t].pc.phase, s.counter != 0)
            case Blocked => false
            case Continue(q, p) => s'.q == q && PhaseOf(s'.tasks[t]) == Some(p)
            case Return(q) => s'.q == q && PhaseOf(s'.tasks[t]) == None
  {
  }

  lemma WaitQueueOk(s: State, t: TaskId, s': State)
    requires QueueOk(s) && t < |s.tasks| && s.tasks[t].pc.Waiting? && Next(s, t) == Some(s')
    ensures QueueOk(s')
  {
    WaitQueueShape(s, t, s');
    PhasesSet(s.tasks, t, s'.tasks[t]);
    WaitIfKeepsInv(s.q, PhasesOf(s.tasks), t, s.counter != 0);
  }

  lemma NotifyQueueOk(s: State, t: TaskId, s': State)
    requires QueueOk(s) && t < |s.tasks| && s.tasks[t].pc.Notify? && Next(s, t) == Some(s')
    ensures QueueOk(s')
  {
    PhasesSet(s.tasks, t, s'.tasks[t]);
    TakeKeepsInv(s.q, PhasesOf(s.tasks), t, |s.q.main|);
  }

  lemma WakeQueueOk(s: State, t: TaskId, s': State)
    requires QueueOk(s) && t < |s.tasks| && s.q.local[t] != [] && Next(s, t) == Some(s')
    ensures QueueOk(s')
  {
    WokenTaskWaits(s, t);
    var w := s.q.local[t][0];
    PhasesSet(s.tasks, w, s'.tasks[w]);
    WakeKeepsInv(s.q, PhasesOf(s.tasks), t);
  }

  /** A step of a running task that leaves the queue alone. */
  lemma StepShape(s: State, t: TaskId, s': State)
    requires Sized(s) && t < |s.tasks| && s.q.local[t] == [] && Next(s, t) == Some(s')
    requires !s.tasks[t].pc.Waiting? && !s.tasks[t].pc.Notify?
    ensures |s'.tasks| == |s.tasks| && s'.tasks == s.tasks[t := s'.tasks[t]] && s'.q == s.q
    ensures !s'.tasks[t].pc.Waking? && (s'.tasks[t].pc.Waiting? ==> s'.tasks[t].pc.phase == FastPath)
  {
  }

  lemma NextQueueOk(s: State, t: TaskId, s': State)
    requires QueueOk(s) && t < |s.tasks| && Next(s, t) == Some(s')
    ensures QueueOk(s')
  {
    if s.tasks[t].pc.Waiting? {
      WaitQueueOk(s, t, s');
    } else if s.tasks[t].pc.Notify? {
      NotifyQueueOk(s, t, s');
    } else if s.q.local[t] != [] {
      WakeQueueOk(s, t, s');
    } else {
      StepShape(s, t, s');
      PhasesSet(s.tasks, t, s'.tasks[t]);
      if s'.tasks[t].pc.Waiting? {
        EnterKeepsInv(s.q, PhasesOf(s.tasks), t);
      }
    }
  }

  lemma RemainingNonNegative(tasks: seq<Task>)
    ensures forall task <- tasks :: 0 <= Remaining(task)
    ensures 0 <= Sum(tasks, Remaining)
  {
    forall task <- tasks ensures 0 <= Remaining(task) {
      SumNonNegative(task.todo, Update);
    }
    SumNonNegative(tasks, Remaining);
  }

  /** The counter falls by exactly what is taken off the tasks' remaining updates. */
  lemma NextCounts(s: State, t: TaskId, s': State)
    requires Sized(s) && t < |s.tasks| && WokenOk(s, t) && Next(s, t) == Some(s')
    ensures s'.counter - Sum(s'.tasks, Remaining) == s.counter - Sum(s.tasks, Remaining)
    ensures s'.counter <= s.counter && |s'.tasks| == |s.tasks|
  {
    if s.q.local[t] != [] {
      var w := s.q.local[t][0];
      SumUpdate(s.tasks, w, s'.tasks[w], Remaining);
    } else {
      SumUpdate(s.tasks, t, s'.tasks[t], Remaining);
      if s.tasks[t].pc == Ready {
        SumFirst(s.tasks[t].todo, Update);
      }
    }
  }

  lemma ActorEffect(s: State, t: TaskId, s': State)
    requires Sized(s) && t < |s.tasks| && WokenOk(s, t) && Next(s, t) == Some(s')
    ensures |s'.tasks| == |s.tasks|
    ensures NeedsOpen(s'.tasks[t].pc) ==> s'.counter == 0 || NeedsOpen(s.tasks[t].pc)
    ensures s'.tasks[t].pc == Waiting(Pushing) ==> s.tasks[t].pc == Waiting(Recheck) && s.counter != 0
    ensures s'.q.main != [] ==> s.q.main != [] || s.tasks[t].pc == Waiting(Pushing)
    ensures s.counter != 0 && s'.counter == 0 ==> s'.tasks[t].pc.Notify?
    ensures s.tasks[t].pc.Notify? ==> s'.q.main == [] && s.q.owner == None && s'.counter == s.counter
  {
  }

  lemma OthersStay(s: State, t: TaskId, s': State, u: TaskId)
    requires Sized(s) && t < |s.tasks| && WokenOk(s, t) && Next(s, t) == Some(s')
    requires u < |s.tasks| && u != t
    ensures |s'.tasks| == |s.tasks|
    ensures s'.tasks[u] == s.tasks[u]
            || (s.tasks[t].pc.Waking? && s.tasks[u].pc == Waiting(Parked) && s'.tasks[u].pc == Returning)
  {
  }

  lemma NextKeepsInv(s: State, t: TaskId, s': State)
    requires Inv(s) && t < |s.tasks| && Next(s, t) == Some(s')
    ensures Inv(s')
  {
    WokenTaskWaits(s, t);
    NextQueueOk(s, t, s');
    NextCounts(s, t, s');
    RemainingNonNegative(s'.tasks);
    ActorEffect(s, t, s');
    forall u: TaskId | u < |s.tasks| && u != t
      ensures NeedsOpen(s'.tasks[u].pc) ==> s'.counter == 0
      ensures s'.tasks[u].pc == Waiting(Pushing) ==> SomebodyWaits(s) && s.q.owner != None
      ensures s.tasks[u].pc.Notify? ==> NotifyPending(s')
    {
      OthersStay(s, t, s', u);
      if s.q.owner == None {
        NobodyHoldsFreeLock(s.q, PhasesOf(s.tasks), u);
      }
    }
    assert s.tasks[t].pc == Waiting(Pushing) ==> SomebodyWaits(s);
    assert s'.tasks[t].pc.Notify? ==> NotifyPending(s');
  }

  // Runs

  ghost predicate Steps(s: State, s': State) {
    Sized(s) && exists t: TaskId :: t < |s.tasks| && Next(s, t) == Some(s')
  }

  function Balance(s: State): int {
    s.counter - Sum(s.tasks, Remaining)
  }

  lemma StepsPreserve()
    ensures Preserved(Steps, Inv)
    ensures forall s, s' :: Inv(s) && Steps(s, s') ==> Balance(s') == Balance(s) && s'.counter <= s.counter
  {
    forall s, s' | Inv(s) && Steps(s, s')
      ensures Inv(s') && Balance(s') == Balance(s) && s'.counter <= s.counter
    {
      var t: TaskId :| t < |s.tasks| && Next(s, t) == Some(s');
      WokenTaskWaits(s, t);
      NextKeepsInv(s, t, s');
      NextCounts(s, t, s');
    }
  }

  /** The counter is the initial count less the updates made, never rises and never falls
      below zero; the assertion in count_down holds; and whoever returns from wait finds 0. */
  lemma CounterHistory(run: seq<State>, i: nat)
    requires IsRun(Init, Steps, run) && i < |run|
    ensures run[i].counter == run[0].counter - (Sum(run[0].tasks, Remaining) - Sum(run[i].tasks, Remaining))
    ensures i > 0 ==> run[i].counter <= run[i - 1].counter
    ensures 0 <= run[i].counter
    ensures forall t :: 0 <= t < |run[i].tasks| ==>
              && (run[i].tasks[t].pc == Returning ==> run[i].counter == 0)
              && (run[i].tasks[t].todo != [] ==> Update(run[i].tasks[t].todo[0]) <= run[i].counter)
  {
    InitHasInv(run[0]);
    StepsPreserve();
    InvariantHolds(Init, Steps, Inv, run);
    QuantityConserved(Init, Steps, Inv, Balance, run);
    var s := run[i];
    RemainingNonNegative(s.tasks);
    forall t | 0 <= t < |s.tasks|
      ensures s.tasks[t].todo != [] ==> Update(s.tasks[t].todo[0]) <= s.counter
    {
      SumAtLeast(s.tasks, t, Remaining);
      if s.tasks[t].todo != [] {
        SumAtLeast(s.tasks[t].todo, 0, Update);
      }
    }
    if i > 0 {
      assert Steps(run[i - 1], run[i]);
    }
  }

  // Final states

  predicate Finished(task: Task) {
    task.pc == Ready && task.todo == []
  }

  ghost predicate Stuck(s: State) {
    Sized(s) && forall t: TaskId :: t < |s.tasks| ==> Next(s, t) == None
  }

  lemma LockHolderSteps(s: State)
    requires Inv(s) && s.q.owner.Some?
    ensures s.q.owner.value < |s.tasks| && Next(s, s.q.owner.value).Some?
  {
    assert HoldsLock(PhasesOf(s.tasks)[s.q.owner.value]);
  }

  /** Nothing can move exactly when all are finished or asleep, and sleepers mean that the
      count has not run out. */
  lemma StuckExactly(s: State)
    requires Inv(s)
    ensures Stuck(s) <==>
      forall t :: 0 <= t < |s.tasks| ==>
        Finished(s.tasks[t]) || (s.tasks[t].pc == Waiting(Parked) && s.counter > 0)
  {
    if Stuck(s) {
      if s.q.owner.Some? {
        LockHolderSteps(s);
      }
      forall t: TaskId | t < |s.tasks|
        ensures Finished(s.tasks[t]) || s.tasks[t].pc == Waiting(Parked)
      {
        assert Next(s, t) == None;
      }
      AllInMain(s.q, PhasesOf(s.tasks));
      forall t: TaskId | t < |s.tasks| && s.tasks[t].pc == Waiting(Parked)
        ensures s.counter > 0
      {
        assert ParkedAt(PhasesOf(s.tasks), t);
      }
    }
  }

  // When a latch opens for everybody

  predicate AsksToWait(todo: seq<Job>) {
    exists j :: 0 <= j < |todo| && !todo[j].CountDown?
  }

  predicate InWait(pc: Pc) {
    pc == Testing || pc.Waiting? || pc == Returning || pc == Notify(true) || pc == Waking(true)
  }

  /** What the program counts down up to its first call that waits, and in that call. */
  function Ahead(todo: seq<Job>): int {
    if todo == [] then 0
    else
      match todo[0]
      case CountDown(n) => n + Ahead(todo[1..])
      case ArriveAndWait(n) => n
      case Wait => 0
  }

  /** What the task counts down before it has to wait. */
  function AheadOf(task: Task): int {
    if InWait(task.pc) then 0 else Ahead(task.todo)
  }

  /** A task that was to wait is still to, or waits, or has found the latch open. */
  predicate Running(start: seq<Job>, task: Task, counter: int) {
    if AsksToWait(start) then counter == 0 || AsksToWait(task.todo) || InWait(task.pc)
    else !AsksToWait(task.todo) && !InWait(task.pc)
  }

  predicate AllRunning(start: seq<Task>, s: State) {
    && |s.tasks| == |start|
    && forall t :: 0 <= t < |start| ==> Running(start[t].todo, s.tasks[t], s.counter)
  }

  lemma RestAsks(todo: seq<Job>)
    requires todo != []
    ensures AsksToWait(todo) <==> !todo[0].CountDown? || AsksToWait(todo[1..])
  {
    if AsksToWait(todo) && todo[0].CountDown? {
      var j :| 0 <= j < |todo| && !todo[j].CountDown?;
      assert todo[1..][j - 1] == todo[j];
    }
    if AsksToWait(todo[1..]) {
      var j :| 0 <= j < |todo[1..]| && !todo[1..][j].CountDown?;
      assert todo[j + 1] == todo[1..][j];
    }
  }

  /** Nobody has anything to count down once the latch is open. */
  lemma {:induction false} NothingAhead(todo: seq<Job>)
    ensures 0 <= Ahead(todo) <= Sum(todo, Update)
  {
    if todo != [] {
      NothingAhead(todo[1..]);
      SumFirst(todo, Update);
      SumNonNegative(todo[1..], Update);
    }
  }

  lemma OpenMeansNothingAhead(s: State, t: TaskId)
    requires Inv(s) && t < |s.tasks| && s.counter == 0
    ensures Ahead(s.tasks[t].todo) == 0
  {
    RemainingNonNegative(s.tasks);
    SumAtLeast(s.tasks, t, Remaining);
    NothingAhead(s.tasks[t].todo);
  }

  lemma TaskKeepsRunning(start: seq<Job>, s: State, t: TaskId, s': State)
    requires Sized(s) && t < |s.tasks| && s.q.local[t] == [] && Next(s, t) == Some(s')
    requires Running(start, s.tasks[t], s.counter)
    requires NeedsOpen(s.tasks[t].pc) ==> s.counter == 0
    requires 0 <= s'.counter <= s.counter
    ensures |s'.tasks| == |s.tasks| && Running(start, s'.tasks[t], s'.counter)
  {
    if s.tasks[t].pc == Ready {
      RestAsks(s.tasks[t].todo);
    }
  }

  /** What a task counts down comes off what it had ahead of it. */
  lemma TaskAheadLess(s: State, t: TaskId, s': State)
    requires Sized(s) && t < |s.tasks| && s.q.local[t] == [] && Next(s, t) == Some(s')
    requires NeedsOpen(s.tasks[t].pc) ==> Ahead(s.tasks[t].todo) == 0
    ensures |s'.tasks| == |s.tasks| && s'.tasks == s.tasks[t := s'.tasks[t]]
    ensures s'.counter - AheadOf(s'.tasks[t]) == s.counter - AheadOf(s.tasks[t])
  {
  }

  /** The count that nobody will ever take off if nobody gets through its wait. */
  function Missing(s: State): int {
    s.counter - Sum(s.tasks, AheadOf)
  }

  lemma StepKeepsMissing(s: State, t: TaskId, s': State)
    requires Inv(s) && t < |s.tasks| && Next(s, t) == Some(s')
    ensures Missing(s') == Missing(s)
  {
    WokenTaskWaits(s, t);
    if s.q.local[t] != [] {
      var w := s.q.local[t][0];
      SumUpdate(s.tasks, w, s'.tasks[w], AheadOf);
    } else {
      if s.counter == 0 {
        OpenMeansNothingAhead(s, t);
      }
      TaskAheadLess(s, t, s');
      SumUpdate(s.tasks, t, s'.tasks[t], AheadOf);
    }
  }

  lemma StepKeepsRunning(start: seq<Task>, s: State, t: TaskId, s': State)
    requires Inv(s) && AllRunning(start, s) && t < |s.tasks| && Next(s, t) == Some(s')
    ensures AllRunning(start, s')
  {
    WokenTaskWaits(s, t);
    NextKeepsInv(s, t, s');
    NextCounts(s, t, s');
    RemainingNonNegative(s'.tasks);
    if s.q.local[t] == [] {
      TaskKeepsRunning(start[t].todo, s, t, s');
    }
    forall u: TaskId | u < |s.tasks| && u != t ensures Running(start[u].todo, s'.tasks[u], s'.counter) {
      OthersStay(s, t, s', u);
    }
  }

  /** At the end the counter has lost what all tasks together count down up to their first call
      that waits, and everybody has come through exactly if that used the count up or nobody asked
      to wait. */
  lemma OpensExactly(run: seq<State>)
    requires IsRun(Init, Steps, run) && Stuck(run[|run| - 1])
    ensures var first, last := run[0], run[|run| - 1];
            var ahead := Sum(first.tasks, AheadOf);
            && last.counter == first.counter - ahead
            && |last.tasks| == |first.tasks|
            && ((forall t :: 0 <= t < |last.tasks| ==> Finished(last.tasks[t])) <==>
                 ahead == first.counter || forall task <- first.tasks :: !AsksToWait(task.todo))
  {
    var first, last := run[0], run[|run| - 1];
    var inv := (s: State) => Inv(s) && AllRunning(first.tasks, s);
    InitHasInv(first);
    forall s, s' | inv(s) && Steps(s, s') ensures inv(s') && Missing(s') == Missing(s) {
      var t: TaskId :| t < |s.tasks| && Next(s, t) == Some(s');
      NextKeepsInv(s, t, s');
      StepKeepsMissing(s, t, s');
      StepKeepsRunning(first.tasks, s, t, s');
    }
    InvariantHolds(Init, Steps, inv, run);
    QuantityConserved(Init, Steps, inv, Missing, run);
    NobodyIsAhead(last);
    FinishedOrWaiting(first.tasks, last);
  }

  lemma NobodyIsAhead(s: State)
    requires Inv(s) && Stuck(s)
    ensures Sum(s.tasks, AheadOf) == 0
  {
    StuckExactly(s);
    SumZero(s.tasks, AheadOf);
  }

  lemma FinishedOrWaiting(start: seq<Task>, s: State)
    requires Inv(s) && Stuck(s) && AllRunning(start, s)
    ensures (forall t :: 0 <= t < |s.tasks| ==> Finished(s.tasks[t])) <==>
              s.counter == 0 || forall task <- start :: !AsksToWait(task.todo)
  {
    StuckExactly(s);
    if (forall t :: 0 <= t < |s.tasks| ==> Finished(s.tasks[t])) && s.counter != 0 {
      forall task <- start ensures !AsksToWait(task.todo) {
        var t :| 0 <= t < |start| && start[t] == task;
        assert Running(start[t].todo, s.tasks[t], s.counter);
      }
    }
    forall t | 0 <= t < |s.tasks| && !Finished(s.tasks[t])
      ensures s.counter > 0 && AsksToWait(start[t].todo) && start[t] in start
    {
      assert Running(start[t].todo, s.tasks[t], s.counter);
    }
  }

  // Termination

  function PcWork(pc: Pc, n: int): int {
    match pc
    case Ready => 0
    case Returning => 1
    case Testing => 8
    case Notify(_) => n + 10
    case Waking(_) => 9
    case Waiting(phase) => WaitWork(phase)
  }

  /** Waiting goes one way only: nobody is resumed before the latch is open. */
  function TaskWork(n: int): Task -> int {
    (task: Task) => (n + 11) * |task.todo| + PcWork(task.pc, n)
  }

  function Measure(s: State): int {
    Sum(s.tasks, TaskWork(|s.tasks|)) + Sum(s.q.local, Length)
  }

  lemma WakeLowers(s: State, t: TaskId, s': State)
    requires Sized(s) && t < |s.tasks| && WokenOk(s, t) && s.q.local[t] != [] && Next(s, t) == Some(s')
    ensures Measure(s') < Measure(s)
  {
    var w := s.q.local[t][0];
    SumUpdate(s.tasks, w, s'.tasks[w], TaskWork(|s.tasks|));
    SumUpdate(s.q.local, t, s.q.local[t][1..], Length);
  }

  lemma NotifyLowers(s: State, t: TaskId, s': State)
    requires Sized(s) && t < |s.tasks| && s.q.local[t] == [] && s.tasks[t].pc.Notify?
    requires Next(s, t) == Some(s') && |s.q.main| <= |s.tasks|
    ensures Measure(s') < Measure(s)
  {
    SumUpdate(s.tasks, t, s'.tasks[t], TaskWork(|s.tasks|));
    SumUpdate(s.q.local, t, s'.q.local[t], Length);
  }

  lemma TaskAhead(s: State, t: TaskId, s': State)
    requires Sized(s) && t < |s.tasks| && s.q.local[t] == [] && !s.tasks[t].pc.Notify?
    requires Next(s, t) == Some(s')
    ensures |s'.tasks| == |s.tasks| && s'.tasks == s.tasks[t := s'.tasks[t]] && s'.q.local == s.q.local
    ensures || (PcWork(s'.tasks[t].pc, |s.tasks|) < PcWork(s.tasks[t].pc, |s.tasks|)
                && s'.tasks[t].todo == s.tasks[t].todo)
            || (s.tasks[t].pc == Ready && |s'.tasks[t].todo| == |s.tasks[t].todo| - 1
                && PcWork(s'.tasks[t].pc, |s.tasks|) <= |s.tasks| + 10)
  {
  }

  lemma OneJobLess(n: nat, task: Task, task': Task)
    requires |task'.todo| == |task.todo| - 1
    ensures TaskWork(n)(task') - PcWork(task'.pc, n) == TaskWork(n)(task) - PcWork(task.pc, n) - (n + 11)
  {
    assert (n + 11) * |task.todo| == (n + 11) * |task'.todo| + (n + 11);
  }

  lemma TaskLowers(s: State, t: TaskId, s': State)
    requires Sized(s) && t < |s.tasks| && s.q.local[t] == [] && !s.tasks[t].pc.Notify?
    requires Next(s, t) == Some(s')
    ensures Measure(s') < Measure(s)
  {
    TaskAhead(s, t, s');
    SumUpdate(s.tasks, t, s'.tasks[t], TaskWork(|s.tasks|));
    if s.tasks[t].pc == Ready {
      OneJobLess(|s.tasks|, s.tasks[t], s'.tasks[t]);
    }
  }

  lemma StepLowersMeasure(s: State, t: TaskId, s': State)
    requires Inv(s) && t < |s.tasks| && Next(s, t) == Some(s')
    ensures Measure(s') < Measure(s)
  {
    WokenTaskWaits(s, t);
    AtMostAllQueued(s.q, PhasesOf(s.tasks));
    if s.q.local[t] != [] {
      WakeLowers(s, t, s');
    } else if s.tasks[t].pc.Notify? {
      NotifyLowers(s, t, s');
    } else {
      TaskLowers(s, t, s');
    }
  }

  /** Every run ends: it is no longer than a bound read off the starting state. */
  lemma RunsAreFinite(run: seq<State>)
    requires IsRun(Init, Steps, run)
    ensures |run| - 1 <= Measure(run[0])
  {
    InitHasInv(run[0]);
    StepsPreserve();
    forall s, s' | Inv(s) && Steps(s, s') ensures Measure(s') < Measure(s) {
      var t: TaskId :| t < |s.tasks| && Next(s, t) == Some(s');
      StepLowersMeasure(s, t, s');
    }
    RunIsBounded(Init, Steps, Inv, Measure, run);
    var last := run[|run| - 1];
    SumNonNegative(last.tasks, TaskWork(|last.tasks|));
    SumNonNegative(last.q.local, Length);
  }
}
