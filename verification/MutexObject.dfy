/** The mutex as the object its users hold, with one method per atomic action. */
module MutexObject {
  import opened Runs
  import opened WaitProtocol
  import opened SuspendQueue
  import opened Mutex

  /** Task t has done what it does next, or was found to be blocked. */
  ghost predicate Follows(before: MutexState, t: TaskId, moved: bool, after: MutexState)
    requires t < |before.tasks| == |before.q.local|
  {
    match MutexNext(before, t)
    case None => !moved && after == before
    case Some(s) => moved && after == s
  }

  class Lock {
    var m_locked: bool
    const m_wait_queue: Queue
    var tasks: seq<Locker>

    ghost function View(): MutexState
      reads this, m_wait_queue
    {
      MutexState(m_locked, m_wait_queue.View(), tasks)
    }

    ghost predicate Valid()
      reads this, m_wait_queue
    {
      MutexInv(View())
    }

    ghost predicate Exists(t: TaskId)
      reads this, m_wait_queue
    {
      t < |tasks| == |m_wait_queue.local|
    }

    constructor (rounds: seq<nat>)
      ensures MutexInit(View()) && fresh(m_wait_queue)
      ensures |tasks| == |rounds| && forall t :: 0 <= t < |tasks| ==> tasks[t].rounds == rounds[t]
    {
      m_locked := false;
      m_wait_queue := new Queue(|rounds|);
      tasks := seq(|rounds|, i requires 0 <= i < |rounds| => Locker(rounds[i], Idle));
    }

    method Goto(t: TaskId, pc: MutexPc)
      modifies `tasks
      ensures tasks == SetLocker(old(tasks), t, pc)
    {
      if t < |tasks| {
        tasks := tasks[t := tasks[t].(pc := pc)];
      }
    }

    method Call(t: TaskId) returns (moved: bool)
      requires Exists(t) && tasks[t].pc == Idle
      modifies `tasks
      ensures Follows(old(View()), t, moved, View())
    {
      if tasks[t].rounds == 0 {
        return false;
      }
      tasks := tasks[t := Locker(tasks[t].rounds - 1, Trying)];
      return true;
    }

    /** try_lock's compare_exchange_strong. */
    method TryLock(t: TaskId)
      requires Exists(t) && tasks[t].pc == Trying
      modifies `m_locked, `tasks
      ensures Follows(old(View()), t, true, View())
    {
      if m_locked {
        Goto(t, Waiting(FastPath));
      } else {
        m_locked := true;
        Goto(t, Holding);
      }
    }

    method WaitStep(t: TaskId) returns (moved: bool)
      requires Exists(t) && tasks[t].pc.Waiting?
      modifies `tasks, m_wait_queue
      ensures Follows(old(View()), t, moved, View())
    {
      var move := m_wait_queue.WaitStep(t, tasks[t].pc.phase, m_locked);
      match move
      case Stay => return false;
      case Go(phase) =>
        Goto(t, Waiting(phase));
        return true;
      case Leave =>
        Goto(t, Trying);
        return true;
    }

    /** unlock's store; its assertion is that the mutex is locked. */
    method Unlock(t: TaskId)
      requires Exists(t) && tasks[t].pc == Holding && Valid()
      modifies `m_locked, `tasks
      ensures old(m_locked) && Follows(old(View()), t, true, View())
    {
      OwnerMeansLocked(View(), t);
      m_locked := false;
      Goto(t, Resuming);
    }

    /** The critical section of resume_one. */
    method PopWaiter(t: TaskId) returns (moved: bool)
      requires Exists(t) && tasks[t].pc == Resuming
      modifies `tasks, m_wait_queue
      ensures Follows(old(View()), t, moved, View())
    {
      moved := m_wait_queue.Pop(t, 1);
      if moved {
        Goto(t, WakingUp);
      }
    }

    method ResumeNext(t: TaskId)
      requires Exists(t) && tasks[t].pc == WakingUp
      modifies `tasks, m_wait_queue
      ensures Follows(old(View()), t, true, View())
    {
      var task := m_wait_queue.ResumeNext(t);
      match task
      case None => Goto(t, Idle);
      case Some(w) => Goto(w, Trying);
    }

    /** Whatever task t does next. */
    method Act(t: TaskId) returns (moved: bool)
      requires Exists(t) && Valid()
      modifies this, m_wait_queue
      ensures Follows(old(View()), t, moved, View())
    {
      moved := true;
      match tasks[t].pc
      case Idle => moved := Call(t);
      case Trying => TryLock(t);
      case Waiting(_) => moved := WaitStep(t);
      case Holding => Unlock(t);
      case Resuming => moved := PopWaiter(t);
      case WakingUp => ResumeNext(t);
    }

    method Step(t: TaskId) returns (moved: bool)
      requires Valid() && t < |tasks|
      modifies this, m_wait_queue
      ensures Valid() && Follows(old(View()), t, moved, View())
      ensures moved ==> MutexSteps(old(View()), View())
    {
      ghost var before := View();
      moved := Act(t);
      if moved {
        MutexStepKeepsInv(before, t, View());
      }
    }

    /** The object under any schedule: what it goes through is a run of the protocol, so that
        every theorem about runs is about it. */
    method Run(schedule: seq<TaskId>) returns (ghost run: seq<MutexState>)
      requires MutexInit(View())
      modifies this, m_wait_queue
      ensures Valid() && IsRun(MutexInit, MutexSteps, run)
      ensures run[0] == old(View()) && run[|run| - 1] == View()
    {
      run := [View()];
      MutexInitHasInv(View());
      for i := 0 to |schedule|
        invariant Valid() && IsRun(MutexInit, MutexSteps, run)
        invariant run[0] == old(View()) && run[|run| - 1] == View()
      {
        var t := schedule[i];
        if t < |tasks| {
          var moved := Step(t);
          if moved {
            ExtendRun(MutexInit, MutexSteps, run, View());
            run := run + [View()];
          }
        }
      }
    }
  }
}
