/** The counting semaphore as the object its users hold, with one method per atomic action. */
module SemaphoreObject {
  import opened Runs
  import opened WaitProtocol
  import opened SuspendQueue
  import opened Semaphore
  import Theorems = SemaphoreTheorems

  /** Task t has done what it does next, or was found to be blocked. */
  ghost predicate Follows(before: State, t: TaskId, weak: bool, moved: bool, after: State)
    requires t < |before.tasks| == |before.q.local|
  {
    match Next(before, t, weak)
    case None => !moved && after == before
    case Some(s) => moved && after == s
  }

  class CountingSemaphore {
    var m_counter: int
    const m_waiters: Queue
    var tasks: seq<Task>

    ghost function View(): State
      reads this, m_waiters
    {
      State(m_counter, m_waiters.View(), tasks)
    }

    ghost predicate Valid()
      reads this, m_waiters
    {
      Inv(View())
    }

    ghost predicate Exists(t: TaskId)
      reads this, m_waiters
    {
      t < |tasks| == |m_waiters.local|
    }

    constructor (desired: nat, programs: seq<seq<Job>>)
      ensures Init(View()) && fresh(m_waiters)
      ensures m_counter == desired && |tasks| == |programs|
      ensures forall t :: 0 <= t < |tasks| ==> tasks[t].todo == programs[t]
    {
      m_counter := desired;
      m_waiters := new Queue(|programs|);
      tasks := seq(|programs|, i requires 0 <= i < |programs| => Task(programs[i], Ready));
    }

    method Goto(t: TaskId, pc: Pc)
      modifies `tasks
      ensures tasks == SetPc(old(tasks), t, pc)
    {
      if t < |tasks| {
        tasks := tasks[t := tasks[t].(pc := pc)];
      }
    }

    /** Entering acquire, try_acquire or release, the last with its fetch_add. */
    method Call(t: TaskId) returns (moved: bool)
      requires Exists(t) && tasks[t].pc == Ready
      modifies `m_counter, `tasks
      ensures Follows(old(View()), t, false, moved, View())
    {
      if tasks[t].todo == [] {
        return false;
      }
      var pc := Ready;
      match tasks[t].todo[0] {
        case Acquire => pc := Enter(true);
        case TryAcquire => pc := Enter(false);
        case Release(update) =>
          if update != 0 {
            m_counter := m_counter + update;
            pc := Resume(update);
          }
      }
      tasks := tasks[t := Task(tasks[t].todo[1..], pc)];
      return true;
    }

    /** The test at the head of try_acquire's loop, on a value just read. */
    method Test(t: TaskId, current: int, blocking: bool)
      modifies `tasks
      ensures tasks == SetPc(old(tasks), t, AfterLoad(current, blocking))
    {
      if current > 0 {
        Goto(t, Cas(current, blocking));
      } else if blocking {
        Goto(t, Wait(FastPath));
      } else {
        Goto(t, Ready);
      }
    }

    /** try_acquire's load; it gives up exactly without a permit. */
    method Load(t: TaskId)
      requires Exists(t) && tasks[t].pc.Enter?
      modifies `tasks
      ensures Follows(old(View()), t, false, true, View())
      ensures t < |tasks| && (tasks[t].pc == Ready <==> m_counter <= 0 && !old(tasks[t].pc).blocking)
    {
      Test(t, m_counter, tasks[t].pc.blocking);
    }

    /** try_acquire's compare_exchange_weak, which `weak` lets fail for no reason.  It takes one
        permit, or fails, and then gives up exactly if there is none. */
    method Exchange(t: TaskId, weak: bool)
      requires Exists(t) && tasks[t].pc.Cas?
      modifies `m_counter, `tasks
      ensures Follows(old(View()), t, weak, true, View())
      ensures var won := old(m_counter) == old(tasks[t].pc).current && !weak;
              && t < |tasks| && m_counter == old(m_counter) - (if won then 1 else 0)
              && (tasks[t].pc == Ready <==> won || (m_counter <= 0 && !old(tasks[t].pc).blocking))
    {
      var current := tasks[t].pc.current;
      if m_counter == current && !weak {
        m_counter := current - 1;
        Goto(t, Ready);
      } else {
        Test(t, m_counter, tasks[t].pc.blocking);
      }
    }

    method WaitStep(t: TaskId) returns (moved: bool)
      requires Exists(t) && tasks[t].pc.Wait?
      modifies `tasks, m_waiters
      ensures Follows(old(View()), t, false, moved, View())
    {
      var move := m_waiters.WaitStep(t, tasks[t].pc.phase, m_counter == 0);
      match move
      case Stay => return false;
      case Go(phase) =>
        Goto(t, Wait(phase));
        return true;
      case Leave =>
        Goto(t, Enter(true));
        return true;
    }

    /** The critical section of resume_n. */
    method PopWaiters(t: TaskId) returns (moved: bool)
      requires Exists(t) && tasks[t].pc.Resume?
      modifies `tasks, m_waiters
      ensures Follows(old(View()), t, false, moved, View())
    {
      moved := m_waiters.Pop(t, tasks[t].pc.n);
      if moved {
        Goto(t, Waking);
      }
    }

    method ResumeNext(t: TaskId)
      requires Exists(t) && tasks[t].pc == Waking
      modifies `tasks, m_waiters
      ensures Follows(old(View()), t, false, true, View())
    {
      var task := m_waiters.ResumeNext(t);
      match task
      case None => Goto(t, Ready);
      case Some(w) => Goto(w, Enter(true));
    }

    /** Whatever task t does next. */
    method Act(t: TaskId, weak: bool) returns (moved: bool)
      requires Exists(t)
      modifies this, m_waiters
      ensures Follows(old(View()), t, weak, moved, View())
    {
      moved := true;
      match tasks[t].pc
      case Ready => moved := Call(t);
      case Enter(_) => Load(t);
      case Cas(_, _) => Exchange(t, weak);
      case Wait(_) => moved := WaitStep(t);
      case Resume(_) => moved := PopWaiters(t);
      case Waking => ResumeNext(t);
    }

    method Step(t: TaskId, weak: bool) returns (moved: bool)
      requires Valid() && t < |tasks|
      modifies this, m_waiters
      ensures Valid() && Follows(old(View()), t, weak, moved, View())
      ensures moved ==> Theorems.Steps(old(View()), View())
    {
      ghost var before := View();
      moved := Act(t, weak);
      if moved {
        NextKeepsInv(before, t, weak);
      }
    }

    /** The object under any schedule: what it goes through is a run of the protocol, so that
        every theorem about runs is about it. */
    method Run(schedule: seq<(TaskId, bool)>) returns (ghost run: seq<State>)
      requires Init(View())
      modifies this, m_waiters
      ensures Valid() && IsRun(Init, Theorems.Steps, run)
      ensures run[0] == old(View()) && run[|run| - 1] == View()
    {
      run := [View()];
      InitHasInv(View());
      for i := 0 to |schedule|
        invariant Valid() && IsRun(Init, Theorems.Steps, run)
        invariant run[0] == old(View()) && run[|run| - 1] == View()
      {
        var (t, weak) := schedule[i];
        if t < |tasks| {
          var moved := Step(t, weak);
          if moved {
            ExtendRun(Init, Theorems.Steps, run, View());
            run := run + [View()];
          }
        }
      }
    }
  }
}
