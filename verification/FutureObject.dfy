/** The shared state of a future as an object, with one method per atomic action. */
module FutureObject {
  import opened Runs
  import opened WaitProtocol
  import opened SuspendQueue
  import opened Future

  /** Task t has done what it does next, or was found to be blocked. */
  ghost predicate Follows(before: State, t: TaskId, moved: bool, after: State)
    requires t < |before.tasks| == |before.q.local|
  {
    match Next(before, t)
    case None => !moved && after == before
    case Some(s) => moved && after == s
  }

  class SharedState {
    const isVoid: bool
    var state: Status
    var value: Option<int>
    var exception: Option<int>
    const m_waiters: Queue
    var tasks: seq<Task>
    ghost var won: seq<Job>

    ghost function View(): State
      reads this, m_waiters
    {
      State(isVoid, state, value, exception, m_waiters.View(), tasks, won)
    }

    ghost predicate Valid()
      reads this, m_waiters
    {
      Inv(View())
    }

    ghost predicate Exists(t: TaskId)
      reads this, m_waiters
    {
      t < |tasks| == |m_waiters.local|
    }

    constructor (isVoid: bool, programs: seq<seq<Job>>)
      ensures Init(View()) && fresh(m_waiters) && this.isVoid == isVoid && |tasks| == |programs|
      ensures forall t :: 0 <= t < |tasks| ==> tasks[t].todo == programs[t]
    {
      this.isVoid := isVoid;
      state, value, exception := Empty, None, None;
      m_waiters := new Queue(|programs|);
      tasks := seq(|programs|, i requires 0 <= i < |programs| => Task(programs[i], Ready, []));
      won := [];
    }

    method Goto(t: TaskId, pc: Pc)
      modifies `tasks
      ensures tasks == SetPc(old(tasks), t, pc)
    {
      if t < |tasks| {
        tasks := tasks[t := tasks[t].(pc := pc)];
      }
    }

    /** The compare_exchange_strong of a setter: from empty to `desired`. */
    method ExchangeEmpty(t: TaskId, job: Job, desired: Status, next: Pc) returns (success: bool)
      modifies `state, `tasks, `won
      ensures success <==> old(state) == Empty
      ensures success ==> state == desired && won == old(won) + [job] && tasks == SetPc(old(tasks), t, next)
      ensures !success ==> state == old(state) && won == old(won) && tasks == old(tasks)
    {
      success := state == Empty;
      if success {
        state := desired;
        won := won + [job];
        Goto(t, next);
      }
    }

    /** Entering set_value, set_exception, break_promise or get.  The first two throw at once exactly
        if the state is not empty. */
    method Call(t: TaskId) returns (moved: bool)
      requires Exists(t) && tasks[t].pc == Ready
      modifies `state, `tasks, `won
      ensures Follows(old(View()), t, moved, View())
      ensures moved ==>
                && t < |tasks| && old(tasks[t].todo) != []
                && var job := old(tasks[t].todo)[0];
                   tasks[t].results == old(tasks[t].results) +
                     if old(state) == Empty || job.Break? || job.Get? then [] else [AlreadySatisfied]
    {
      if tasks[t].todo == [] {
        return false;
      }
      var job := tasks[t].todo[0];
      tasks := tasks[t := tasks[t].(todo := tasks[t].todo[1..])];
      var success := true;
      match job {
        case Get => Goto(t, Waiting(FastPath));
        case Break => var broken := ExchangeEmpty(t, job, Broken, Notify);
        case SetException(_) => success := ExchangeEmpty(t, job, InTransition, Storing(job));
        case _ =>
          if isVoid {
            success := ExchangeEmpty(t, job, HasValue, Notify);
          } else {
            success := ExchangeEmpty(t, job, InTransition, Storing(job));
          }
      }
      if !success {
        tasks := tasks[t := tasks[t].(results := tasks[t].results + [AlreadySatisfied])];
      }
      return true;
    }

    /** Storing the payload, or the exception that storing it threw. */
    method Store(t: TaskId)
      requires Exists(t) && tasks[t].pc.Storing?
      modifies `value, `exception, `tasks
      ensures Follows(old(View()), t, true, View())
    {
      match tasks[t].pc.job
      case SetValue(v) =>
        value := Some(v);
        Goto(t, Publishing(HasValue));
      case SetThrowing(e) =>
        exception := Some(e);
        Goto(t, Publishing(HasException));
      case SetException(e) =>
        exception := Some(e);
        Goto(t, Publishing(HasException));
      case _ =>
    }

    method Publish(t: TaskId)
      requires Exists(t) && tasks[t].pc.Publishing?
      modifies `state, `tasks
      ensures Follows(old(View()), t, true, View())
    {
      state := tasks[t].pc.to;
      Goto(t, Notify);
    }

    method WaitStep(t: TaskId) returns (moved: bool)
      requires Exists(t) && tasks[t].pc.Waiting?
      modifies `tasks, m_waiters
      ensures Follows(old(View()), t, moved, View())
    {
      var move := m_waiters.WaitStep(t, tasks[t].pc.phase, !IsReady(state));
      match move
      case Stay => return false;
      case Go(phase) =>
        Goto(t, Waiting(phase));
        return true;
      case Leave =>
        Goto(t, Returning);
        return true;
    }

    /** What get returns or throws once wait is over; wait's assertion holds. */
    method Result(t: TaskId)
      requires Exists(t) && Valid() && tasks[t].pc == Returning
      modifies `tasks
      ensures IsReady(state) && Follows(old(View()), t, true, View())
    {
      assert TaskOk(View(), tasks[t]);
      var result := Got(value);
      if state == HasException {
        result := Threw(exception);
      } else if state == Broken {
        result := BrokenPromise;
      }
      tasks := tasks[t := Task(tasks[t].todo, Ready, tasks[t].results + [result])];
    }

    /** The critical section of resume_all. */
    method PopAll(t: TaskId) returns (moved: bool)
      requires Exists(t) && tasks[t].pc == Notify
      modifies `tasks, m_waiters
      ensures Follows(old(View()), t, moved, View())
    {
      moved := m_waiters.Pop(t, |m_waiters.main|);
      if moved {
        Goto(t, Waking);
      }
    }

    method ResumeNext(t: TaskId)
      requires Exists(t) && tasks[t].pc == Waking
      modifies `tasks, m_waiters
      ensures Follows(old(View()), t, true, View())
    {
      var task := m_waiters.ResumeNext(t);
      match task
      case None => Goto(t, Ready);
      case Some(w) => Goto(w, Returning);
    }

    /** Whatever task t does next. */
    method Act(t: TaskId) returns (moved: bool)
      requires Exists(t) && Valid()
      modifies this, m_waiters
      ensures Follows(old(View()), t, moved, View())
    {
      moved := true;
      match tasks[t].pc
      case Ready => moved := Call(t);
      case Storing(_) => Store(t);
      case Publishing(_) => Publish(t);
      case Waiting(_) => moved := WaitStep(t);
      case Returning => Result(t);
      case Notify => moved := PopAll(t);
      case Waking => ResumeNext(t);
    }

    method Step(t: TaskId) returns (moved: bool)
      requires Valid() && t < |tasks|
      modifies this, m_waiters
      ensures Valid() && Follows(old(View()), t, moved, View())
      ensures moved ==> Steps(old(View()), View())
    {
      ghost var before := View();
      moved := Act(t);
      if moved {
        NextKeepsInv(before, t, View());
      }
    }

    /** The object under any schedule: what it goes through is a run of the protocol, so that
        every theorem about runs is about it. */
    method Run(schedule: seq<TaskId>) returns (ghost run: seq<State>)
      requires Init(View())
      modifies this, m_waiters
      ensures Valid() && IsRun(Init, Steps, run)
      ensures run[0] == old(View()) && run[|run| - 1] == View()
    {
      run := [View()];
      InitHasInv(View());
      for i := 0 to |schedule|
        invariant Valid() && IsRun(Init, Steps, run)
        invariant run[0] == old(View()) && run[|run| - 1] == View()
      {
        var t := schedule[i];
        if t < |tasks| {
          var moved := Step(t);
          if moved {
            ExtendRun(Init, Steps, run, View());
            run := run + [View()];
          }
        }
      }
    }
  }
}
