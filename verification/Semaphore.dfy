/** The counting semaphore: `try_acquire`, `acquire` and `release` one atomic action at a time,
    for any number of tasks each running its own list of calls. */
module Semaphore {
  import opened TaskSums
  import opened WaitProtocol

  /** The calls a task makes, in order. */
  datatype Job = Acquire | TryAcquire | Release(update: nat)

  /** `blocking` tells `acquire`, which retries, from `try_acquire`, which gives up. */
  datatype Pc =
    | Ready                              // between two calls
    | Enter(blocking: bool)              // about to load the counter
    | Cas(current: int, blocking: bool)  // about to exchange a possibly stale value
    | Wait(phase: Phase)                 // inside wait_if
    | Resume(n: nat)                     // counter raised, resume_n(n) still owed
    | Waking                             // inside do_resume_all

  datatype Task = Task(todo: seq<Job>, pc: Pc)

  datatype State = State(counter: int, q: Waiters, tasks: seq<Task>)

  function SetPc(tasks: seq<Task>, t: TaskId, pc: Pc): seq<Task> {
    if t < |tasks| then tasks[t := tasks[t].(pc := pc)] else tasks
  }

  /** The CAS loop's exit test on a value just read. */
  function AfterLoad(value: int, blocking: bool): Pc {
    if value > 0 then Cas(value, blocking) else if blocking then Wait(FastPath) else Ready
  }

  function Call(s: State, t: TaskId): Option<State>
    requires t < |s.tasks|
  {
    var task := s.tasks[t];
    if task.todo == [] then None
    else
      var rest := task.todo[1..];
      match task.todo[0]
      case Acquire => Some(s.(tasks := s.tasks[t := Task(rest, Enter(true))]))
      case TryAcquire => Some(s.(tasks := s.tasks[t := Task(rest, Enter(false))]))
      case Release(n) =>
        if n == 0 then Some(s.(tasks := s.tasks[t := Task(rest, Ready)]))
        else Some(s.(counter := s.counter + n, tasks := s.tasks[t := Task(rest, Resume(n))]))
  }

  /** What task `t` does next, or None when it has finished or is blocked.  `weak` lets the
      weak compare-exchange fail although the values agree. */
  function Next(s: State, t: TaskId, weak: bool): Option<State>
    requires t < |s.tasks| == |s.q.local|
  {
    match s.tasks[t].pc
    case Ready => Call(s, t)
    case Enter(b) => Some(s.(tasks := SetPc(s.tasks, t, AfterLoad(s.counter, b))))
    case Cas(current, b) =>
      if s.counter == current && !weak
      then Some(s.(counter := s.counter - 1, tasks := SetPc(s.tasks, t, Ready)))
      else Some(s.(tasks := SetPc(s.tasks, t, AfterLoad(s.counter, b))))
    case Wait(phase) =>
      (match WaitIf(s.q, t, phase, s.counter == 0)
       case Blocked => None
       case Continue(q, p) => Some(s.(q := q, tasks := SetPc(s.tasks, t, Wait(p))))
       case Return(q) => Some(s.(q := q, tasks := SetPc(s.tasks, t, Enter(true)))))
    case Resume(n) =>
      (match Take(s.q, t, n)
       case None => None
       case Some(q) => Some(s.(q := q, tasks := SetPc(s.tasks, t, Waking))))
    case Waking =>
      if s.q.local[t] == [] then Some(s.(tasks := SetPc(s.tasks, t, Ready)))
      else Some(s.(q := DropFront(s.q, t), tasks := SetPc(s.tasks, s.q.local[t][0], Enter(true))))
  }

  // The invariant

  function PhaseOf(task: Task): Option<Phase> {
    if task.pc.Wait? then Some(task.pc.phase) else None
  }

  function PhasesOf(tasks: seq<Task>): Phases {
    seq(|tasks|, i requires 0 <= i < |tasks| => PhaseOf(tasks[i]))
  }

  lemma PhasesSet(tasks: seq<Task>, t: TaskId, task: Task)
    requires t < |tasks|
    ensures PhasesOf(tasks[t := task]) == PhasesOf(tasks)[t := PhaseOf(task)]
  {
  }

  function InAcquire(task: Task): int {
    match task.pc
    case Enter(b) => if b then 1 else 0
    case Cas(_, b) => if b then 1 else 0
    case Wait(_) => 1
    case _ => 0
  }

  /** Inside `acquire` and running. */
  function Awake(task: Task): int {
    if task.pc == Wait(Parked) then 0 else InAcquire(task)
  }

  function Owes(task: Task): int {
    if task.pc.Resume? then task.pc.n else 0
  }

  /** Tasks inside `acquire` whose node is not in the queue. */
  function NotQueued(s: State): int {
    Sum(s.tasks, InAcquire) - |s.q.main|
  }

  function OwedWakeups(s: State): int {
    Sum(s.tasks, Owes)
  }

  /** Permits that somebody awake, popped, or owed a wakeup will look after. */
  function Cover(s: State): int {
    Sum(s.tasks, Awake) + Sum(s.q.local, Length) + Sum(s.tasks, Owes)
  }

  predicate PushPending(s: State) {
    exists t :: 0 <= t < |s.tasks| && s.tasks[t].pc == Wait(Pushing)
  }

  ghost predicate Inv(s: State) {
    && WaitInv(s.q, PhasesOf(s.tasks))
    && 0 <= s.counter
    && (forall t :: 0 <= t < |s.tasks| && s.tasks[t].pc.Cas? ==> s.tasks[t].pc.current > 0)
    && (forall t :: 0 <= t < |s.tasks| && s.q.local[t] != [] ==> s.tasks[t].pc == Waking)
    && (s.q.main != [] ==> s.counter <= Cover(s))
    && (PushPending(s) ==> s.counter <= Cover(s) - 1)
  }

  ghost predicate Init(s: State) {
    && 0 <= s.counter
    && s.q == NoWaiters(|s.tasks|)
    && forall t :: 0 <= t < |s.tasks| ==> s.tasks[t].pc == Ready
  }

  lemma InitHasInv(s: State)
    requires Init(s)
    ensures Inv(s)
  {
    NoWaitersInv(PhasesOf(s.tasks));
  }

  /** Replacing one task moves every sum by the difference. */
  lemma SumsSet(tasks: seq<Task>, t: TaskId, task: Task)
    requires t < |tasks|
    ensures Sum(tasks[t := task], Awake) == Sum(tasks, Awake) - Awake(tasks[t]) + Awake(task)
    ensures Sum(tasks[t := task], Owes) == Sum(tasks, Owes) - Owes(tasks[t]) + Owes(task)
    ensures PhasesOf(tasks[t := task]) == PhasesOf(tasks)[t := PhaseOf(task)]
  {
    SumUpdate(tasks, t, task, Awake);
    SumUpdate(tasks, t, task, Owes);
  }

  /** A step that touches neither a phase nor the queue. */
  lemma LocalStepKeepsInv(s: State, t: TaskId, s': State)
    requires Inv(s) && t < |s.tasks| && !s.tasks[t].pc.Wait?
    requires s'.q == s.q && |s'.tasks| == |s.tasks| && s'.tasks == s.tasks[t := s'.tasks[t]]
    requires s'.tasks[t].pc.Wait? ==> s'.tasks[t].pc.phase == FastPath
    requires s'.tasks[t].pc.Cas? ==> s'.tasks[t].pc.current > 0
    requires s.q.local[t] == []
    requires 0 <= s'.counter
    requires s'.counter - s.counter <=
             Awake(s'.tasks[t]) - Awake(s.tasks[t]) + Owes(s'.tasks[t]) - Owes(s.tasks[t])
    ensures Inv(s')
  {
    SumsSet(s.tasks, t, s'.tasks[t]);
    if s'.tasks[t].pc.Wait? {
      EnterKeepsInv(s.q, PhasesOf(s.tasks), t);
    } else {
      assert PhasesOf(s'.tasks) == PhasesOf(s.tasks);
    }
    if PushPending(s') {
      assert PushPending(s);
    }
  }

  /** The lock has one holder, so at most one task is about to push. */
  lemma PusherHoldsLock(s: State)
    requires WaitInv(s.q, PhasesOf(s.tasks))
    ensures forall u :: 0 <= u < |s.tasks| && s.tasks[u].pc == Wait(Pushing) ==> s.q.owner == Some(u)
  {
    forall u | 0 <= u < |s.tasks| && s.tasks[u].pc == Wait(Pushing)
      ensures s.q.owner == Some(u)
    {
      assert HoldsLock(PhasesOf(s.tasks)[u]);
    }
  }

  lemma PushKeepsInv(s: State, t: TaskId)
    requires Inv(s) && t < |s.tasks| && s.tasks[t].pc == Wait(Pushing)
    ensures Inv(Next(s, t, false).value)
  {
    var s' := Next(s, t, false).value;
    SumsSet(s.tasks, t, s'.tasks[t]);
    WaitIfKeepsInv(s.q, PhasesOf(s.tasks), t, s.counter == 0);
    PusherHoldsLock(s);
    assert PushPending(s);
    if PushPending(s') {
      PusherHoldsLock(s');
    }
  }

  /** Any other action of `wait_if` leaves the task awake and the lists alone. */
  lemma WaitStepEffect(s: State, t: TaskId, s': State)
    requires WaitInv(s.q, PhasesOf(s.tasks)) && t < |s.tasks|
    requires s.tasks[t].pc.Wait? && s.tasks[t].pc != Wait(Pushing)
    requires Next(s, t, false) == Some(s')
    ensures WaitInv(s'.q, PhasesOf(s'.tasks)) && Cover(s') == Cover(s)
    ensures s' == State(s.counter, s.q.(owner := s'.q.owner), s.tasks[t := s'.tasks[t]])
    ensures s'.tasks[t].pc.Wait? || s'.tasks[t].pc == Enter(true)
    ensures s'.tasks[t].pc != Wait(Parked)
    ensures s'.tasks[t].pc == Wait(Pushing) ==> s.tasks[t].pc == Wait(Recheck) && s.counter == 0
  {
    WaitIfKeepsInv(s.q, PhasesOf(s.tasks), t, s.counter == 0);
    PhasesSet(s.tasks, t, s'.tasks[t]);
    SumsSet(s.tasks, t, s'.tasks[t]);
  }

  /** A re-check that saw zero is covered by the re-checking task itself. */
  lemma WaitStepKeepsInv(s: State, t: TaskId)
    requires Inv(s) && t < |s.tasks| && s.tasks[t].pc.Wait?
    ensures Next(s, t, false).Some? ==> Inv(Next(s, t, false).value)
  {
    if s.tasks[t].pc == Wait(Pushing) {
      PushKeepsInv(s, t);
    } else if Next(s, t, false).Some? {
      var s' := Next(s, t, false).value;
      WaitStepEffect(s, t, s');
      if s'.tasks[t].pc == Wait(Pushing) {
        SumNonNegative(s'.tasks, Owes);
        SumNonNegative(s'.q.local, Length);
        SumAtLeast(s'.tasks, t, Awake);
      } else if PushPending(s') {
        assert PushPending(s);
      }
    }
  }

  lemma TakeStepKeepsInv(s: State, t: TaskId)
    requires Inv(s) && t < |s.tasks| && s.tasks[t].pc.Resume?
    ensures Next(s, t, false).Some? ==> Inv(Next(s, t, false).value)
  {
    var n := s.tasks[t].pc.n;
    if Next(s, t, false).Some? {
      var s' := Next(s, t, false).value;
      SumsSet(s.tasks, t, s'.tasks[t]);
      assert PhasesOf(s'.tasks) == PhasesOf(s.tasks);
      TakeKeepsInv(s.q, PhasesOf(s.tasks), t, n);
      SumUpdate(s.q.local, t, s.q.main[..Min(n, |s.q.main|)], Length);
      PusherHoldsLock(s);
    }
  }

  lemma WakeStepKeepsInv(s: State, t: TaskId)
    requires Inv(s) && t < |s.tasks| && s.tasks[t].pc == Waking && s.q.local[t] != []
    ensures Inv(Next(s, t, false).value)
  {
    var s' := Next(s, t, false).value;
    var w := s.q.local[t][0];
    WakeKeepsInv(s.q, PhasesOf(s.tasks), t);
    SumsSet(s.tasks, w, s'.tasks[w]);
    SumUpdate(s.q.local, t, s.q.local[t][1..], Length);
    if PushPending(s') {
      assert PushPending(s);
    }
  }

  lemma NextKeepsInv(s: State, t: TaskId, weak: bool)
    requires Inv(s) && t < |s.tasks|
    ensures Next(s, t, weak).Some? ==> Inv(Next(s, t, weak).value)
  {
    if s.tasks[t].pc.Wait? {
      WaitStepKeepsInv(s, t);
    } else if s.tasks[t].pc.Resume? {
      TakeStepKeepsInv(s, t);
    } else if s.q.local[t] != [] {
      WakeStepKeepsInv(s, t);
    } else if Next(s, t, weak).Some? {
      LocalStepKeepsInv(s, t, Next(s, t, weak).value);
    }
  }
}
