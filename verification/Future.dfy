/** The shared state of promise and future: racing setters, a destructor that breaks the
    promise, and any number of getters. */
module Future {
  import opened TaskSums
  import opened Runs
  import opened WaitProtocol

  datatype Status = Empty | HasValue | HasException | Broken | InTransition

  predicate IsReady(status: Status) {
    status == HasValue || status == HasException || status == Broken
  }

  /** `SetThrowing(e)` is a set_value during which constructing the value throws e. */
  datatype Job = SetValue(value: int) | SetThrowing(error: int) | SetException(error: int) | Break | Get

  datatype Result = Got(value: Option<int>) | Threw(error: Option<int>) | BrokenPromise | AlreadySatisfied

  datatype Pc =
    | Ready                   // between two calls
    | Storing(job: Job)       // won the exchange, about to store the payload
    | Publishing(to: Status)  // stored it, about to store the final status
    | Notify                  // ready, resume_all still owed
    | Waking                  // inside do_resume_all
    | Waiting(phase: Phase)   // inside wait_if
    | Returning               // past wait, about to read the result

  datatype Task = Task(todo: seq<Job>, pc: Pc, results: seq<Result>)

  /** `isVoid` is shared_state<void>, which has no payload for a value.  `won` is history: the
      calls whose exchange of Empty succeeded. */
  datatype State = State(
    isVoid: bool, status: Status, value: Option<int>, exception: Option<int>,
    q: Waiters, tasks: seq<Task>, won: seq<Job>)

  function SetPc(tasks: seq<Task>, t: TaskId, pc: Pc): seq<Task> {
    if t < |tasks| then tasks[t := tasks[t].(pc := pc)] else tasks
  }

  function Goto(s: State, t: TaskId, pc: Pc): State {
    s.(tasks := SetPc(s.tasks, t, pc))
  }

  /** What get returns or throws in a ready state. */
  function Outcome(s: State): Result {
    match s.status
    case HasException => Threw(s.exception)
    case Broken => BrokenPromise
    case _ => Got(s.value)
  }

  /** What get will return or throw if `job` is the call that takes effect. */
  function Promised(isVoid: bool, job: Job): Result {
    match job
    case SetValue(v) => if isVoid then Got(None) else Got(Some(v))
    case SetThrowing(e) => if isVoid then Got(None) else Threw(Some(e))
    case SetException(e) => Threw(Some(e))
    case _ => BrokenPromise
  }

  /** A setter's compare-exchange of Empty. */
  function SetNext(s: State, t: TaskId, job: Job): State
    requires t < |s.tasks|
  {
    if s.status == Empty then
      var won := s.won + [job];
      if job == Break then Goto(s, t, Notify).(status := Broken, won := won)
      else if s.isVoid && !job.SetException? then Goto(s, t, Notify).(status := HasValue, won := won)
      else Goto(s, t, Storing(job)).(status := InTransition, won := won)
    else if job == Break then s
    else s.(tasks := s.tasks[t := s.tasks[t].(results := s.tasks[t].results + [AlreadySatisfied])])
  }

  function StoreNext(s: State, t: TaskId, job: Job): State {
    if job.SetValue? then Goto(s, t, Publishing(HasValue)).(value := Some(job.value))
    else if job.SetThrowing? || job.SetException?
    then Goto(s, t, Publishing(HasException)).(exception := Some(job.error))
    else s
  }

  function Next(s: State, t: TaskId): Option<State>
    requires t < |s.tasks| == |s.q.local|
  {
    match s.tasks[t].pc
    case Ready =>
      if s.tasks[t].todo == [] then None
      else
        var job := s.tasks[t].todo[0];
        var s1 := s.(tasks := s.tasks[t := s.tasks[t].(todo := s.tasks[t].todo[1..])]);
        Some(if job == Get then Goto(s1, t, Waiting(FastPath)) else SetNext(s1, t, job))
    case Storing(job) => Some(StoreNext(s, t, job))
    case Publishing(status) => Some(Goto(s, t, Notify).(status := status))
    case Waiting(phase) =>
      (match WaitIf(s.q, t, phase, !IsReady(s.status))
       case Blocked => None
       case Continue(q, p) => Some(Goto(s, t, Waiting(p)).(q := q))
       case Return(q) => Some(Goto(s, t, Returning).(q := q)))
    case Returning =>
      var task := s.tasks[t];
      Some(s.(tasks := s.tasks[t := Task(task.todo, Ready, task.results + [Outcome(s)])]))
    case Notify =>
      (match TakeAll(s.q, t)
       case None => None
       case Some(q) => Some(Goto(s, t, Waking).(q := q)))
    case Waking =>
      if s.q.local[t] == [] then Some(Goto(s, t, Ready))
      else Some(Goto(s, s.q.local[t][0], Returning).(q := DropFront(s.q, t)))
  }

  // The invariant

  function PhaseOf(task: Task): Option<Phase> {
    if task.pc.Waiting? then Some(task.pc.phase) else None
  }

  function PhasesOf(tasks: seq<Task>): Phases {
    seq(|tasks|, i requires 0 <= i < |tasks| => PhaseOf(tasks[i]))
  }

  function Setting(task: Task): int {
    if task.pc.Storing? || task.pc.Publishing? then 1 else 0
  }

  predicate SomebodyWaits(s: State) {
    s.q.main != [] || exists t :: 0 <= t < |s.tasks| && s.tasks[t].pc == Waiting(Pushing)
  }

  predicate NotifyPending(s: State) {
    exists t :: 0 <= t < |s.tasks| && s.tasks[t].pc == Notify
  }

  ghost predicate QueueOk(s: State) {
    && WaitInv(s.q, PhasesOf(s.tasks))
    && forall t :: 0 <= t < |s.tasks| && s.q.local[t] != [] ==> s.tasks[t].pc == Waking
  }

  /** One winner at most, and what a ready state holds is what the winner promised. */
  predicate WinnerOk(s: State) {
    && |s.won| <= 1
    && (s.status == Empty <==> s.won == [])
    && (IsReady(s.status) ==> s.won != [] && Outcome(s) == Promised(s.isVoid, s.won[0]))
    && (s.value.Some? ==> s.won != [] && s.won[0].SetValue? && !s.isVoid)
  }

  function Setters(status: Status): int {
    if status == InTransition then 1 else 0
  }

  predicate OneWinner(s: State) {
    WinnerOk(s) && Sum(s.tasks, Setting) == Setters(s.status)
  }

  predicate TaskOk(s: State, task: Task) {
    && (task.pc.Storing? ==>
          && s.won == [task.pc.job] && (s.isVoid ==> task.pc.job.SetException?)
          && (task.pc.job.SetValue? || task.pc.job.SetThrowing? || task.pc.job.SetException?))
    && (task.pc.Publishing? ==>
          && s.won != [] && IsReady(task.pc.to)
          && Outcome(s.(status := task.pc.to)) == Promised(s.isVoid, s.won[0]))
    && (task.pc in {Returning, Waiting(SelfResume), Notify, Waking} ==> IsReady(s.status))
    && forall r <- task.results :: r == AlreadySatisfied || (IsReady(s.status) && r == Outcome(s))
  }

  predicate TasksOk(s: State) {
    forall t :: 0 <= t < |s.tasks| ==> TaskOk(s, s.tasks[t])
  }

  predicate WaitersServed(s: State) {
    SomebodyWaits(s) ==> !IsReady(s.status) || NotifyPending(s)
  }

  ghost predicate Inv(s: State) {
    QueueOk(s) && OneWinner(s) && TasksOk(s) && WaitersServed(s)
  }

  ghost predicate Init(s: State) {
    && s.status == Empty && s.value == None && s.exception == None && s.won == []
    && s.q == NoWaiters(|s.tasks|)
    && forall t :: 0 <= t < |s.tasks| ==> s.tasks[t].pc == Ready && s.tasks[t].results == []
  }

  lemma InitHasInv(s: State)
    requires Init(s)
    ensures Inv(s)
  {
    NoWaitersInv(PhasesOf(s.tasks));
    SumZero(s.tasks, Setting);
  }

  predicate Sized(s: State) {
    |s.tasks| == |s.q.local|
  }

  /** The task about to be resumed by `t` is parked, and is not `t`. */
  predicate WokenOk(s: State, t: TaskId)
    requires Sized(s) && t < |s.tasks|
  {
    s.q.local[t] != [] ==>
      && s.tasks[t].pc == Waking
      && var w := s.q.local[t][0]; w < |s.tasks| && w != t && s.tasks[w].pc == Waiting(Parked)
  }

  lemma WokenTaskWaits(s: State, t: TaskId)
    requires QueueOk(s) && t < |s.tasks|
    ensures WokenOk(s, t)
  {
    if s.q.local[t] != [] {
      WakeKeepsInv(s.q, PhasesOf(s.tasks), t);
    }
  }

  lemma PhasesSet(tasks: seq<Task>, t: TaskId, task: Task)
    requires t < |tasks|
    ensures PhasesOf(tasks[t := task]) == PhasesOf(tasks)[t := PhaseOf(task)]
    ensures PhaseOf(task) == PhaseOf(tasks[t]) ==> PhasesOf(tasks[t := task]) == PhasesOf(tasks)
  {
  }

  /** Which tasks a step changes, and how it uses the queue. */
  lemma StepShape(s: State, t: TaskId, s': State)
    requires Sized(s) && t < |s.tasks| && WokenOk(s, t) && Next(s, t) == Some(s')
    ensures |s'.tasks| == |s.tasks| && s'.isVoid == s.isVoid
    ensures s.q.local[t] != [] ==>
              s' == s.(q := DropFront(s.q, t), tasks := SetPc(s.tasks, s.q.local[t][0], Returning))
    ensures s.q.local[t] == [] ==> s'.tasks == s.tasks[t := s'.tasks[t]]
    ensures s.q.local[t] == [] && !s.tasks[t].pc.Waiting? && s.tasks[t].pc != Notify ==>
              s'.q == s.q && s'.tasks[t].pc != Waking
              && (s'.tasks[t].pc.Waiting? ==> s'.tasks[t].pc.phase == FastPath)
  {
  }

  lemma WaitQueueShape(s: State, t: TaskId, s': State)
    requires Sized(s) && t < |s.tasks| && s.tasks[t].pc.Waiting? && Next(s, t) == Some(s')
    ensures |s'.tasks| == |s.tasks| && s'.tasks == s.tasks[t := s'.tasks[t]] && s'.tasks[t].pc != Waking
    ensures s'.q.local == s.q.local && PhaseOf(s.tasks[t]) == Some(s.tasks[t].pc.phase)
    ensures match WaitIf(s.q, t, s.tasks[t].pc.phase, !IsReady(s.status))
            case Blocked => false
            case Continue(q, p) => s'.q == q && PhaseOf(s'.tasks[t]) == Some(p)
            case Return(q) => s'.q == q && PhaseOf(s'.tasks[t]) == None
  {
  }

  lemma WaitQueueOk(s: State, t: TaskId, s': State)
    requires QueueOk(s) && t < |s.tasks| && s.tasks[t].pc.Waiting? && Next(s, t) == Some(s')
    ensures QueueOk(s')
  {
    WaitQueueShape(s, t, s');
    PhasesSet(s.tasks, t, s'.tasks[t]);
    WaitIfKeepsInv(s.q, PhasesOf(s.tasks), t, !IsReady(s.status));
  }

  lemma NotifyQueueOk(s: State, t: TaskId, s': State)
    requires QueueOk(s) && t < |s.tasks| && s.tasks[t].pc == Notify && Next(s, t) == Some(s')
    ensures QueueOk(s') && s'.q.main == [] && s'.q.owner == None
  {
    PhasesSet(s.tasks, t, s'.tasks[t]);
    TakeKeepsInv(s.q, PhasesOf(s.tasks), t, |s.q.main|);
  }

  lemma WakeQueueOk(s: State, t: TaskId, s': State)
    requires QueueOk(s) && t < |s.tasks| && s.q.local[t] != [] && Next(s, t) == Some(s')
    ensures QueueOk(s')
  {
    WokenTaskWaits(s, t);
    var w := s.q.local[t][0];
    PhasesSet(s.tasks, w, s'.tasks[w]);
    WakeKeepsInv(s.q, PhasesOf(s.tasks), t);
  }

  lemma NextQueueOk(s: State, t: TaskId, s': State)
    requires QueueOk(s) && t < |s.tasks| && Next(s, t) == Some(s')
    ensures QueueOk(s')
  {
    WokenTaskWaits(s, t);
    StepShape(s, t, s');
    if s.tasks[t].pc.Waiting? {
      WaitQueueOk(s, t, s');
    } else if s.tasks[t].pc == Notify {
      NotifyQueueOk(s, t, s');
    } else if s.q.local[t] != [] {
      WakeQueueOk(s, t, s');
    } else {
      PhasesSet(s.tasks, t, s'.tasks[t]);
      if s'.tasks[t].pc.Waiting? {
        EnterKeepsInv(s.q, PhasesOf(s.tasks), t);
      }
    }
  }

  /** A setter that is under way owns the transition; nobody else touches the payload. */
  lemma SetterOwns(s: State, t: TaskId)
    requires OneWinner(s) && t < |s.tasks| && Setting(s.tasks[t]) == 1
    ensures s.status == InTransition
    ensures forall u :: 0 <= u < |s.tasks| && u != t ==> Setting(s.tasks[u]) == 0
  {
    SumAtLeast(s.tasks, t, Setting);
    forall u | 0 <= u < |s.tasks| && u != t ensures Setting(s.tasks[u]) == 0 {
      if u < t {
        SumAtLeastTwo(s.tasks, u, t, Setting);
      } else {
        SumAtLeastTwo(s.tasks, t, u, Setting);
      }
    }
  }

  /** Once ready, always ready, with the same result. */
  lemma ReadyStays(s: State, t: TaskId, s': State)
    requires Inv(s) && t < |s.tasks| && Next(s, t) == Some(s') && IsReady(s.status)
    ensures s'.status == s.status && s'.value == s.value && s'.exception == s.exception && s'.won == s.won
  {
    if Setting(s.tasks[t]) == 1 {
      SetterOwns(s, t);
    }
  }

  /** A step starts or ends a transition together with the task that makes it. */
  lemma ActorWins(s: State, t: TaskId, s': State)
    requires WinnerOk(s) && Sized(s) && t < |s.tasks| && s.q.local[t] == [] && Next(s, t) == Some(s')
    requires TaskOk(s, s.tasks[t]) && (Setting(s.tasks[t]) == 1 ==> s.status == InTransition)
    ensures WinnerOk(s') && |s'.tasks| == |s.tasks|
    ensures Setting(s'.tasks[t]) - Setting(s.tasks[t]) == Setters(s'.status) - Setters(s.status)
  {
  }

  lemma NextOneWinner(s: State, t: TaskId, s': State)
    requires Inv(s) && t < |s.tasks| && Next(s, t) == Some(s')
    ensures OneWinner(s')
  {
    WokenTaskWaits(s, t);
    StepShape(s, t, s');
    var u := if s.q.local[t] != [] then s.q.local[t][0] else t;
    if s.q.local[t] == [] {
      assert TaskOk(s, s.tasks[t]);
      if Setting(s.tasks[t]) == 1 {
        SetterOwns(s, t);
      }
      ActorWins(s, t, s');
    }
    SumUpdate(s.tasks, u, s'.tasks[u], Setting);
  }

  lemma CallerOk(s: State, t: TaskId, s': State)
    requires OneWinner(s) && Sized(s) && t < |s.tasks| && s.tasks[t].pc == Ready && Next(s, t) == Some(s')
    requires TaskOk(s, s.tasks[t])
    ensures |s'.tasks| == |s.tasks| && TaskOk(s', s'.tasks[t])
  {
  }

  lemma SetterOk(s: State, t: TaskId, s': State)
    requires OneWinner(s) && Sized(s) && t < |s.tasks| && Setting(s.tasks[t]) == 1 && Next(s, t) == Some(s')
    requires TaskOk(s, s.tasks[t]) && s.status == InTransition
    ensures |s'.tasks| == |s.tasks| && TaskOk(s', s'.tasks[t])
  {
  }

  lemma ActorOk(s: State, t: TaskId, s': State)
    requires OneWinner(s) && Sized(s) && t < |s.tasks| && s.q.local[t] == [] && Next(s, t) == Some(s')
    requires TaskOk(s, s.tasks[t])
    ensures |s'.tasks| == |s.tasks| && TaskOk(s', s'.tasks[t])
  {
    if s.tasks[t].pc == Ready {
      CallerOk(s, t, s');
    } else if Setting(s.tasks[t]) == 1 {
      SetterOwns(s, t);
      SetterOk(s, t, s');
    }
  }

  lemma OtherOk(s: State, t: TaskId, s': State, task: Task)
    requires Inv(s) && t < |s.tasks| && s.q.local[t] == [] && Next(s, t) == Some(s')
    requires TaskOk(s, task) && (Setting(task) == 1 ==> Setting(s.tasks[t]) == 0 && s.status == InTransition)
    ensures TaskOk(s', task)
  {
    if IsReady(s.status) {
      ReadyStays(s, t, s');
    }
  }

  lemma NextTasksOk(s: State, t: TaskId, s': State)
    requires Inv(s) && t < |s.tasks| && Next(s, t) == Some(s')
    ensures TasksOk(s')
  {
    WokenTaskWaits(s, t);
    StepShape(s, t, s');
    assert TaskOk(s, s.tasks[t]);
    forall u | 0 <= u < |s'.tasks| ensures TaskOk(s', s'.tasks[u]) {
      assert TaskOk(s, s.tasks[u]);
      if s.q.local[t] == [] {
        if u == t {
          ActorOk(s, t, s');
        } else {
          if Setting(s.tasks[u]) == 1 {
            SetterOwns(s, u);
          }
          OtherOk(s, t, s', s.tasks[u]);
        }
      }
    }
  }

  lemma ActorEffect(s: State, t: TaskId, s': State)
    requires Sized(s) && t < |s.tasks| && WokenOk(s, t) && Next(s, t) == Some(s')
    requires s.tasks[t].pc != Notify
    ensures |s'.tasks| == |s.tasks|
    ensures s'.tasks[t].pc == Waiting(Pushing) ==> s.tasks[t].pc == Waiting(Recheck) && !IsReady(s.status)
    ensures s'.q.main != [] ==> s.q.main != [] || s.tasks[t].pc == Waiting(Pushing)
    ensures !IsReady(s.status) && IsReady(s'.status) ==> s'.tasks[t].pc == Notify
  {
  }

  lemma NextWaitersServed(s: State, t: TaskId, s': State)
    requires Inv(s) && t < |s.tasks| && Next(s, t) == Some(s')
    ensures WaitersServed(s')
  {
    WokenTaskWaits(s, t);
    StepShape(s, t, s');
    if s.tasks[t].pc == Notify {
      NotifyQueueOk(s, t, s');
      forall u: TaskId | u < |s'.tasks| ensures s'.tasks[u].pc != Waiting(Pushing) {
        NobodyHoldsFreeLock(s'.q, PhasesOf(s'.tasks), u);
      }
    } else {
      ActorEffect(s, t, s');
      forall u: TaskId | u < |s.tasks| && u != t
        ensures s'.tasks[u].pc == Waiting(Pushing) ==> SomebodyWaits(s)
        ensures s.tasks[u].pc == Notify ==> NotifyPending(s')
      {
        assert s'.tasks[u].pc == s.tasks[u].pc || s'.tasks[u].pc == Returning;
      }
      assert s.tasks[t].pc == Waiting(Pushing) ==> SomebodyWaits(s);
      if IsReady(s.status) {
        ReadyStays(s, t, s');
      }
      assert s'.tasks[t].pc == Notify ==> NotifyPending(s');
    }
  }

  lemma NextKeepsInv(s: State, t: TaskId, s': State)
    requires Inv(s) && t < |s.tasks| && Next(s, t) == Some(s')
    ensures Inv(s')
  {
    NextQueueOk(s, t, s');
    NextOneWinner(s, t, s');
    NextTasksOk(s, t, s');
    NextWaitersServed(s, t, s');
  }

  // Runs

  ghost predicate Steps(s: State, s': State) {
    Sized(s) && exists t: TaskId :: t < |s.tasks| && Next(s, t) == Some(s')
  }

  lemma StepsPreserveInv()
    ensures Preserved(Steps, Inv)
  {
    forall s, s' | Inv(s) && Steps(s, s') ensures Inv(s') {
      var t: TaskId :| t < |s.tasks| && Next(s, t) == Some(s');
      NextKeepsInv(s, t, s');
    }
  }

  lemma RunHasInv(run: seq<State>, i: nat)
    requires IsRun(Init, Steps, run) && i < |run|
    ensures Inv(run[i])
  {
    InitHasInv(run[0]);
    StepsPreserveInv();
    InvariantHolds(Init, Steps, Inv, run);
  }

  /** Of all the racing calls at most one takes effect, and a ready state holds just what that
      call promised. */
  lemma SingleAssignment(run: seq<State>, i: nat)
    requires IsRun(Init, Steps, run) && i < |run|
    ensures |run[i].won| <= 1
    ensures IsReady(run[i].status) ==>
              run[i].won != [] && Outcome(run[i]) == Promised(run[i].isVoid, run[i].won[0])
    ensures run[i].status == HasValue && !run[i].isVoid ==> run[i].value.Some?
    ensures run[i].status == HasException ==> run[i].exception.Some?
  {
    RunHasInv(run, i);
  }

  /** A ready state never changes again. */
  lemma ReadyForever(run: seq<State>, i: nat, j: nat)
    requires IsRun(Init, Steps, run) && i <= j < |run| && IsReady(run[i].status)
    ensures run[j].status == run[i].status && run[j].value == run[i].value
    ensures run[j].exception == run[i].exception && run[j].won == run[i].won
  {
    var s0 := run[i];
    var inv := (s: State) =>
      && Inv(s) && s.status == s0.status && s.value == s0.value && s.exception == s0.exception && s.won == s0.won;
    RunHasInv(run, i);
    forall s, s' | inv(s) && Steps(s, s') ensures inv(s') {
      var t: TaskId :| t < |s.tasks| && Next(s, t) == Some(s');
      ReadyStays(s, t, s');
      NextKeepsInv(s, t, s');
    }
    var rest := run[i..];
    assert forall k :: 0 <= k < |rest| ==> rest[k] == run[i + k];
    assert IsRun((s: State) => true, Steps, rest);
    InvariantHolds((s: State) => true, Steps, inv, rest);
    assert inv(rest[j - i]);
  }

  /** wait returns only in a ready state, and whatever any two calls of get returned or threw
      is the same, the outcome of the one call that took effect. */
  lemma GettersAgree(run: seq<State>, i: nat, t: TaskId, r: Result)
    requires IsRun(Init, Steps, run) && i < |run| && t < |run[i].tasks|
    ensures run[i].tasks[t].pc == Returning ==> IsReady(run[i].status)
    ensures r in run[i].tasks[t].results && r != AlreadySatisfied ==>
              run[i].won != [] && r == Promised(run[i].isVoid, run[i].won[0])
  {
    RunHasInv(run, i);
    assert TaskOk(run[i], run[i].tasks[t]);
  }

  /** No getter stays queued in a ready state without a resume_all on its way. */
  lemma GettersServed(run: seq<State>, i: nat)
    requires IsRun(Init, Steps, run) && i < |run|
    ensures IsReady(run[i].status) && SomebodyWaits(run[i]) ==> NotifyPending(run[i])
  {
    RunHasInv(run, i);
  }

  // Final states

  predicate Finished(task: Task) {
    task.pc == Ready && task.todo == []
  }

  predicate AllFinished(s: State) {
    forall t :: 0 <= t < |s.tasks| ==> Finished(s.tasks[t])
  }

  ghost predicate Stuck(s: State) {
    Sized(s) && forall t: TaskId :: t < |s.tasks| ==> Next(s, t) == None
  }

  lemma LockHolderSteps(s: State)
    requires Inv(s) && s.q.owner.Some?
    ensures s.q.owner.value < |s.tasks| && Next(s, s.q.owner.value).Some?
  {
    assert HoldsLock(PhasesOf(s.tasks)[s.q.owner.value]);
  }

  lemma StuckMeansAsleep(s: State)
    requires Inv(s) && Stuck(s)
    ensures forall t :: 0 <= t < |s.tasks| ==> Finished(s.tasks[t]) || s.tasks[t].pc == Waiting(Parked)
  {
    if s.q.owner.Some? {
      LockHolderSteps(s);
    }
    forall t: TaskId | t < |s.tasks|
      ensures Finished(s.tasks[t]) || s.tasks[t].pc == Waiting(Parked)
    {
      assert Next(s, t) == None;
    }
  }

  /** Nothing can move exactly when everybody is finished or asleep on a state that nobody
      has set. */
  lemma StuckExactly(s: State)
    requires Inv(s)
    ensures Stuck(s) <==>
      forall t :: 0 <= t < |s.tasks| ==>
        Finished(s.tasks[t]) || (s.tasks[t].pc == Waiting(Parked) && s.status == Empty)
  {
    if Stuck(s) {
      StuckMeansAsleep(s);
      AllInMain(s.q, PhasesOf(s.tasks));
      SumZero(s.tasks, Setting);
      forall t: TaskId | t < |s.tasks| && s.tasks[t].pc == Waiting(Parked)
        ensures s.status == Empty
      {
        assert ParkedAt(PhasesOf(s.tasks), t);
        assert SomebodyWaits(s);
      }
    }
  }

  predicate SetsFirst(task: Task) {
    task.todo != [] && task.todo[0] != Get
  }

  /** Where a task can be while nobody has set the state: before its first call, if that sets
      something, and otherwise no further than asleep in it. */
  predicate NotYetSet(start: Task, task: Task) {
    || task == start
    || (start.todo != [] && start.todo[0] == Get && task.pc.Waiting? && task.pc != Waiting(SelfResume))
  }

  predicate AllNotYetSet(start: seq<Task>, s: State) {
    |s.tasks| == |start| && forall t :: 0 <= t < |start| ==> NotYetSet(start[t], s.tasks[t])
  }

  lemma StepKeepsNotYetSet(start: seq<Task>, s: State, t: TaskId, s': State)
    requires Inv(s) && s.status == Empty ==> AllNotYetSet(start, s)
    requires Inv(s) && |s.tasks| == |start| && t < |s.tasks| && Next(s, t) == Some(s')
    requires forall u :: 0 <= u < |start| ==> start[u].pc == Ready
    ensures |s'.tasks| == |start| && (s'.status == Empty ==> AllNotYetSet(start, s'))
  {
    WokenTaskWaits(s, t);
    StepShape(s, t, s');
    assert TaskOk(s, s.tasks[t]);
    if s'.status == Empty {
      EmptyBefore(s, t, s');
      assert NotYetSet(start[t], s.tasks[t]);
    }
  }

  lemma EmptyBefore(s: State, t: TaskId, s': State)
    requires Inv(s) && t < |s.tasks| && Next(s, t) == Some(s') && s'.status == Empty
    ensures s.status == Empty && s.q.local[t] == []
  {
    NextKeepsInv(s, t, s');
    WokenTaskWaits(s, t);
    assert TaskOk(s, s.tasks[t]);
    if Setting(s.tasks[t]) == 1 {
      SetterOwns(s, t);
    }
  }

  /** Every run comes to its end with all calls returned exactly for those programs in which
      some task's first call sets the state, or nobody calls anything. */
  lemma CompletesExactly(run: seq<State>)
    requires IsRun(Init, Steps, run) && Stuck(run[|run| - 1])
    ensures AllFinished(run[|run| - 1]) <==>
              (exists task <- run[0].tasks :: SetsFirst(task)) || AllFinished(run[0])
  {
    var start, last := run[0].tasks, run[|run| - 1];
    var inv := (s: State) => Inv(s) && |s.tasks| == |start| && (s.status == Empty ==> AllNotYetSet(start, s));
    InitHasInv(run[0]);
    forall s, s' | inv(s) && Steps(s, s') ensures inv(s') {
      var t: TaskId :| t < |s.tasks| && Next(s, t) == Some(s');
      NextKeepsInv(s, t, s');
      StepKeepsNotYetSet(start, s, t, s');
    }
    InvariantHolds(Init, Steps, inv, run);
    StuckExactly(last);
    if last.status == Empty {
      StuckEmpty(start, last);
    } else {
      SetByFirstCall(run);
    }
  }

  lemma StuckEmpty(start: seq<Task>, s: State)
    requires Inv(s) && Stuck(s) && s.status == Empty && AllNotYetSet(start, s)
    requires forall u :: 0 <= u < |start| ==> start[u].pc == Ready
    ensures forall task <- start :: !SetsFirst(task)
    ensures AllFinished(s) <==> forall t :: 0 <= t < |start| ==> Finished(start[t])
  {
    StuckMeansAsleep(s);
    forall t | 0 <= t < |start|
      ensures !SetsFirst(start[t]) && (Finished(s.tasks[t]) <==> Finished(start[t]))
    {
      assert NotYetSet(start[t], s.tasks[t]);
    }
  }

  /** If the state was ever set, the first to set it had made no call before. */
  lemma {:induction false} SetByFirstCall(run: seq<State>)
    requires IsRun(Init, Steps, run) && run[|run| - 1].status != Empty
    ensures exists task <- run[0].tasks :: SetsFirst(task)
  {
    var n := |run| - 1;
    SplitRun(Init, Steps, run);
    if run[n - 1].status != Empty {
      SetByFirstCall(run[..n]);
    } else {
      EmptyRunNotYetSet(run[..n]);
      var s, s' := run[n - 1], run[n];
      var t: TaskId :| t < |s.tasks| && Next(s, t) == Some(s');
      RunHasInv(run, n - 1);
      WokenTaskWaits(s, t);
      StepShape(s, t, s');
      assert TaskOk(s, s.tasks[t]);
      assert NotYetSet(run[0].tasks[t], s.tasks[t]);
      assert SetsFirst(run[0].tasks[t]);
    }
  }

  lemma EmptyRunNotYetSet(run: seq<State>)
    requires IsRun(Init, Steps, run) && run[|run| - 1].status == Empty
    ensures AllNotYetSet(run[0].tasks, run[|run| - 1])
  {
    var start := run[0].tasks;
    var inv := (s: State) => Inv(s) && |s.tasks| == |start| && (s.status == Empty ==> AllNotYetSet(start, s));
    InitHasInv(run[0]);
    forall s, s' | inv(s) && Steps(s, s') ensures inv(s') {
      var t: TaskId :| t < |s.tasks| && Next(s, t) == Some(s');
      NextKeepsInv(s, t, s');
      StepKeepsNotYetSet(start, s, t, s');
    }
    InvariantHolds(Init, Steps, inv, run);
  }

  // Termination

  function PcWork(pc: Pc, n: int): int {
    match pc
    case Ready => 0
    case Returning => 1
    case Storing(_) => n + 12
    case Publishing(_) => n + 11
    case Notify => n + 10
    case Waking => 9
    case Waiting(phase) => WaitWork(phase)
  }

  /** Waiting goes one way only: nobody is resumed before the state is ready. */
  function TaskWork(n: int): Task -> int {
    (task: Task) => (n + 13) * |task.todo| + PcWork(task.pc, n)
  }

  function Measure(s: State): int {
    Sum(s.tasks, TaskWork(|s.tasks|)) + Sum(s.q.local, Length)
  }

  lemma WakeLowers(s: State, t: TaskId, s': State)
    requires Sized(s) && t < |s.tasks| && WokenOk(s, t) && s.q.local[t] != [] && Next(s, t) == Some(s')
    ensures Measure(s') < Measure(s)
  {
    var w := s.q.local[t][0];
    SumUpdate(s.tasks, w, s'.tasks[w], TaskWork(|s.tasks|));
    SumUpdate(s.q.local, t, s.q.local[t][1..], Length);
  }

  lemma NotifyLowers(s: State, t: TaskId, s': State)
    requires Sized(s) && t < |s.tasks| && s.q.local[t] == [] && s.tasks[t].pc == Notify
    requires Next(s, t) == Some(s') && |s.q.main| <= |s.tasks|
    ensures Measure(s') < Measure(s)
  {
    SumUpdate(s.tasks, t, s'.tasks[t], TaskWork(|s.tasks|));
    SumUpdate(s.q.local, t, s'.q.local[t], Length);
  }

  lemma TaskAhead(s: State, t: TaskId, s': State)
    requires Sized(s) && t < |s.tasks| && s.q.local[t] == [] && s.tasks[t].pc != Notify
    requires TaskOk(s, s.tasks[t]) && Next(s, t) == Some(s')
    ensures |s'.tasks| == |s.tasks| && s'.tasks == s.tasks[t := s'.tasks[t]] && s'.q.local == s.q.local
    ensures var n := |s.tasks|;
            || (PcWork(s'.tasks[t].pc, n) < PcWork(s.tasks[t].pc, n) && s'.tasks[t].todo == s.tasks[t].todo)
            || (s.tasks[t].pc == Ready && |s'.tasks[t].todo| == |s.tasks[t].todo| - 1
                && PcWork(s'.tasks[t].pc, n) <= n + 12)
  {
  }

  lemma OneJobLess(n: nat, task: Task, task': Task)
    requires |task'.todo| == |task.todo| - 1
    ensures TaskWork(n)(task') - PcWork(task'.pc, n) == TaskWork(n)(task) - PcWork(task.pc, n) - (n + 13)
  {
    assert (n + 13) * |task.todo| == (n + 13) * |task'.todo| + (n + 13);
  }

  lemma TaskLowers(s: State, t: TaskId, s': State)
    requires Sized(s) && t < |s.tasks| && s.q.local[t] == [] && s.tasks[t].pc != Notify
    requires TaskOk(s, s.tasks[t]) && Next(s, t) == Some(s')
    ensures Measure(s') < Measure(s)
  {
    TaskAhead(s, t, s');
    SumUpdate(s.tasks, t, s'.tasks[t], TaskWork(|s.tasks|));
    if s.tasks[t].pc == Ready {
      OneJobLess(|s.tasks|, s.tasks[t], s'.tasks[t]);
    }
  }

  lemma StepsLowerMeasure()
    ensures Decreasing(Steps, Inv, Measure)
  {
    forall s, s' | Inv(s) && Steps(s, s') ensures Measure(s') < Measure(s) {
      var t: TaskId :| t < |s.tasks| && Next(s, t) == Some(s');
      WokenTaskWaits(s, t);
      AtMostAllQueued(s.q, PhasesOf(s.tasks));
      assert TaskOk(s, s.tasks[t]);
      if s.q.local[t] != [] {
        WakeLowers(s, t, s');
      } else if s.tasks[t].pc == Notify {
        NotifyLowers(s, t, s');
      } else {
        TaskLowers(s, t, s');
      }
    }
  }

  lemma MeasureNonNegative(s: State)
    ensures 0 <= Measure(s)
  {
    SumNonNegative(s.tasks, TaskWork(|s.tasks|));
    SumNonNegative(s.q.local, Length);
  }

  /** Every run ends: it is no longer than a bound read off the starting state. */
  lemma RunsAreFinite(run: seq<State>)
    requires IsRun(Init, Steps, run)
    ensures |run| - 1 <= Measure(run[0])
  {
    InitHasInv(run[0]);
    StepsPreserveInv();
    StepsLowerMeasure();
    RunIsBounded(Init, Steps, Inv, Measure, run);
    MeasureNonNegative(run[|run| - 1]);
  }
}
