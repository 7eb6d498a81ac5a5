/** The latch as the object its users hold, with one method per atomic action. */
module LatchObject {
  import opened TaskSums
  import opened Runs
  import opened WaitProtocol
  import opened SuspendQueue
  import opened Latch

  /** Task t has done what it does next, or was found to be blocked. */
  ghost predicate Follows(before: State, t: TaskId, moved: bool, after: State)
    requires t < |before.tasks| == |before.q.local|
  {
    match Next(before, t)
    case None => !moved && after == before
    case Some(s) => moved && after == s
  }

  function TasksOf(programs: seq<seq<Job>>): seq<Task> {
    seq(|programs|, i requires 0 <= i < |programs| => Task(programs[i], Ready))
  }

  /** What a call is about to subtract is still there. */
  lemma UpdateFits(s: State, t: TaskId)
    requires Inv(s) && t < |s.tasks| && s.tasks[t].todo != []
    ensures Update(s.tasks[t].todo[0]) <= s.counter
  {
    SumAtLeast(s.tasks[t].todo, 0, Update);
    RemainingNonNegative(s.tasks);
    SumAtLeast(s.tasks, t, Remaining);
  }

  class CountDownLatch {
    var m_counter: int
    const m_waiters: Queue
    var tasks: seq<Task>

    ghost function View(): State
      reads this, m_waiters
    {
      State(m_counter, m_waiters.View(), tasks)
    }

    ghost predicate Valid()
      reads this, m_waiters
    {
      Inv(View())
    }

    ghost predicate Exists(t: TaskId)
      reads this, m_waiters
    {
      t < |tasks| == |m_waiters.local|
    }

    /** The client's side: all updates together do not exceed the initial count. */
    constructor (expected: nat, programs: seq<seq<Job>>)
      requires Sum(TasksOf(programs), Remaining) <= expected
      ensures Init(View()) && fresh(m_waiters) && m_counter == expected && tasks == TasksOf(programs)
    {
      m_counter := expected;
      m_waiters := new Queue(|programs|);
      tasks := TasksOf(programs);
    }

    method Goto(t: TaskId, pc: Pc)
      modifies `tasks
      ensures tasks == SetPc(old(tasks), t, pc)
    {
      if t < |tasks| {
        tasks := tasks[t := tasks[t].(pc := pc)];
      }
    }

    /** count_down's fetch_sub; its assertion holds. */
    method CountDownBy(t: TaskId, update: nat, waits: bool)
      requires Exists(t) && Valid() && tasks[t].pc == Ready && tasks[t].todo != [] && Update(tasks[t].todo[0]) == update
      modifies `m_counter, `tasks
      ensures update <= old(m_counter) && View() == CountDownNext(old(View()), t, update, waits)
    {
      UpdateFits(View(), t);
      var prev := m_counter;
      m_counter := m_counter - update;
      var pc := if prev == update then Notify(waits) else if waits then Testing else Ready;
      tasks := tasks[t := Task(tasks[t].todo[1..], pc)];
    }

    method Call(t: TaskId) returns (moved: bool)
      requires Exists(t) && Valid() && tasks[t].pc == Ready
      modifies `m_counter, `tasks
      ensures Follows(old(View()), t, moved, View())
    {
      if tasks[t].todo == [] {
        return false;
      }
      match tasks[t].todo[0] {
        case CountDown(update) => CountDownBy(t, update, false);
        case ArriveAndWait(update) => CountDownBy(t, update, true);
        case Wait => tasks := tasks[t := Task(tasks[t].todo[1..], Testing)];
      }
      return true;
    }

    /** wait's own try_wait. */
    method TryWait(t: TaskId)
      requires Exists(t) && tasks[t].pc == Testing
      modifies `tasks
      ensures Follows(old(View()), t, true, View())
    {
      Goto(t, if m_counter == 0 then Returning else Waiting(FastPath));
    }

    method WaitStep(t: TaskId) returns (moved: bool)
      requires Exists(t) && tasks[t].pc.Waiting?
      modifies `tasks, m_waiters
      ensures Follows(old(View()), t, moved, View())
    {
      var move := m_waiters.WaitStep(t, tasks[t].pc.phase, m_counter != 0);
      match move
      case Stay => return false;
      case Go(phase) =>
        Goto(t, Waiting(phase));
        return true;
      case Leave =>
        Goto(t, Returning);
        return true;
    }

    /** The end of wait; its assertion holds. */
    method Return(t: TaskId)
      requires Exists(t) && Valid() && tasks[t].pc == Returning
      modifies `tasks
      ensures m_counter == 0 && Follows(old(View()), t, true, View())
    {
      Goto(t, Ready);
    }

    /** The critical section of resume_all. */
    method PopAll(t: TaskId) returns (moved: bool)
      requires Exists(t) && tasks[t].pc.Notify?
      modifies `tasks, m_waiters
      ensures Follows(old(View()), t, moved, View())
    {
      var waits := tasks[t].pc.waits;
      moved := m_waiters.Pop(t, |m_waiters.main|);
      if moved {
        Goto(t, Waking(waits));
      }
    }

    method ResumeNext(t: TaskId)
      requires Exists(t) && tasks[t].pc.Waking?
      modifies `tasks, m_waiters
      ensures Follows(old(View()), t, true, View())
    {
      var waits := tasks[t].pc.waits;
      var task := m_waiters.ResumeNext(t);
      match task
      case None => Goto(t, if waits then Testing else Ready);
      case Some(w) => Goto(w, Returning);
    }

    /** Whatever task t does next. */
    method Act(t: TaskId) returns (moved: bool)
      requires Exists(t) && Valid()
      modifies this, m_waiters
      ensures Follows(old(View()), t, moved, View())
    {
      moved := true;
      match tasks[t].pc
      case Ready => moved := Call(t);
      case Testing => TryWait(t);
      case Waiting(_) => moved := WaitStep(t);
      case Returning => Return(t);
      case Notify(_) => moved := PopAll(t);
      case Waking(_) => ResumeNext(t);
    }

    method Step(t: TaskId) returns (moved: bool)
      requires Valid() && t < |tasks|
      modifies this, m_waiters
      ensures Valid() && Follows(old(View()), t, moved, View())
      ensures moved ==> Steps(old(View()), View())
    {
      ghost var before := View();
      moved := Act(t);
      if moved {
        NextKeepsInv(before, t, View());
      }
    }

    /** The object under any schedule: what it goes through is a run of the protocol, so that
        every theorem about runs is about it. */
    method Run(schedule: seq<TaskId>) returns (ghost run: seq<State>)
      requires Init(View())
      modifies this, m_waiters
      ensures Valid() && IsRun(Init, Steps, run)
      ensures run[0] == old(View()) && run[|run| - 1] == View()
    {
      run := [View()];
      InitHasInv(View());
      for i := 0 to |schedule|
        invariant Valid() && IsRun(Init, Steps, run)
        invariant run[0] == old(View()) && run[|run| - 1] == View()
      {
        var t := schedule[i];
        if t < |tasks| {
          var moved := Step(t);
          if moved {
            ExtendRun(Init, Steps, run, View());
            run := run + [View()];
          }
        }
      }
    }
  }
}
