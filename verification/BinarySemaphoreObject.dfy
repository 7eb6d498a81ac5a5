/** The binary semaphore as the object its users hold, with one method per atomic action. */
module BinarySemaphoreObject {
  import opened Runs
  import opened WaitProtocol
  import opened SuspendQueue
  import opened Semaphore
  import opened BinarySemaphore

  /** Task t has done what it does next, or was found to be blocked. */
  ghost predicate Follows(before: Flag, t: TaskId, moved: bool, after: Flag)
    requires t < |before.tasks| == |before.q.local|
  {
    match FlagNext(before, t)
    case None => !moved && after == before
    case Some(s) => moved && after == s
  }

  class CountingSemaphore1 {
    var m_available: bool
    const m_waiters: Queue
    var tasks: seq<Task>

    ghost function View(): Flag
      reads this, m_waiters
    {
      Flag(m_available, m_waiters.View(), tasks)
    }

    ghost predicate Valid()
      reads this, m_waiters
    {
      FlagInv(View())
    }

    ghost predicate Exists(t: TaskId)
      reads this, m_waiters
    {
      t < |tasks| == |m_waiters.local|
    }

    constructor (desired: bool, programs: seq<seq<Job>>)
      ensures FlagInit(View()) && fresh(m_waiters)
      ensures m_available == desired && |tasks| == |programs|
      ensures forall t :: 0 <= t < |tasks| ==> tasks[t].todo == programs[t]
    {
      m_available := desired;
      m_waiters := new Queue(|programs|);
      tasks := seq(|programs|, i requires 0 <= i < |programs| => Task(programs[i], Ready));
    }

    /** A release while the semaphore is available would break the code's assertion. */
    predicate MayStep(t: TaskId)
      requires t < |tasks|
      reads this
    {
      var task := tasks[t];
      !(m_available && task.pc == Ready && task.todo != [] && task.todo[0].Release? && task.todo[0].update > 0)
    }

    method Goto(t: TaskId, pc: Pc)
      modifies `tasks
      ensures tasks == SetPc(old(tasks), t, pc)
    {
      if t < |tasks| {
        tasks := tasks[t := tasks[t].(pc := pc)];
      }
    }

    /** Entering acquire, try_acquire or release, the last with its store. */
    method Call(t: TaskId) returns (moved: bool)
      requires Exists(t) && tasks[t].pc == Ready
      modifies `m_available, `tasks
      ensures Follows(old(View()), t, moved, View())
    {
      if tasks[t].todo == [] {
        return false;
      }
      var pc := Ready;
      match tasks[t].todo[0] {
        case Acquire => pc := Enter(true);
        case TryAcquire => pc := Enter(false);
        case Release(update) =>
          if update != 0 {
            m_available := true;
            pc := Resume(1);
          }
      }
      tasks := tasks[t := Task(tasks[t].todo[1..], pc)];
      return true;
    }

    /** try_acquire's compare_exchange_strong. */
    method Exchange(t: TaskId)
      requires Exists(t) && tasks[t].pc.Enter?
      modifies `m_available, `tasks
      ensures Follows(old(View()), t, true, View())
    {
      if m_available {
        m_available := false;
        Goto(t, Ready);
      } else if tasks[t].pc.blocking {
        Goto(t, Wait(FastPath));
      } else {
        Goto(t, Ready);
      }
    }

    method WaitStep(t: TaskId) returns (moved: bool)
      requires Exists(t) && tasks[t].pc.Wait?
      modifies `tasks, m_waiters
      ensures Follows(old(View()), t, moved, View())
    {
      var move := m_waiters.WaitStep(t, tasks[t].pc.phase, !m_available);
      match move
      case Stay => return false;
      case Go(phase) =>
        Goto(t, Wait(phase));
        return true;
      case Leave =>
        Goto(t, Enter(true));
        return true;
    }

    /** The critical section of resume_one. */
    method PopWaiter(t: TaskId) returns (moved: bool)
      requires Exists(t) && tasks[t].pc.Resume?
      modifies `tasks, m_waiters
      ensures Follows(old(View()), t, moved, View())
    {
      moved := m_waiters.Pop(t, 1);
      if moved {
        Goto(t, Waking);
      }
    }

    method ResumeNext(t: TaskId)
      requires Exists(t) && tasks[t].pc == Waking
      modifies `tasks, m_waiters
      ensures Follows(old(View()), t, true, View())
    {
      var task := m_waiters.ResumeNext(t);
      match task
      case None => Goto(t, Ready);
      case Some(w) => Goto(w, Enter(true));
    }

    /** Whatever task t does next. */
    method Act(t: TaskId) returns (moved: bool)
      requires Exists(t)
      modifies this, m_waiters
      ensures Follows(old(View()), t, moved, View())
    {
      moved := true;
      match tasks[t].pc
      case Ready => moved := Call(t);
      case Enter(_) => Exchange(t);
      case Cas(_, _) => moved := false;
      case Wait(_) => moved := WaitStep(t);
      case Resume(_) => moved := PopWaiter(t);
      case Waking => ResumeNext(t);
    }

    method Step(t: TaskId) returns (moved: bool)
      requires Valid() && t < |tasks| && MayStep(t)
      modifies this, m_waiters
      ensures Valid() && Follows(old(View()), t, moved, View())
      ensures moved ==> FlagSteps(old(View()), View())
    {
      ghost var before := View();
      moved := Act(t);
      if moved {
        StepKeepsFlagInv(before, t, View());
      }
    }

    /** The object under any schedule: what it goes through is a run of the protocol, so that
        every theorem about runs is about it. */
    method Run(schedule: seq<TaskId>) returns (ghost run: seq<Flag>)
      requires FlagInit(View())
      modifies this, m_waiters
      ensures Valid() && IsRun(FlagInit, FlagSteps, run)
      ensures run[0] == old(View()) && run[|run| - 1] == View()
    {
      run := [View()];
      FlagInitHasInv(View());
      for i := 0 to |schedule|
        invariant Valid() && IsRun(FlagInit, FlagSteps, run)
        invariant run[0] == old(View()) && run[|run| - 1] == View()
      {
        var t := schedule[i];
        if t < |tasks| && MayStep(t) {
          var moved := Step(t);
          if moved {
            ExtendRun(FlagInit, FlagSteps, run, View());
            run := run + [View()];
          }
        }
      }
    }
  }
}
