/** The atomic condition as the object its users hold, with one method per atomic action. */
module AtomicConditionObject {
  import opened Runs
  import opened WaitProtocol
  import opened SuspendQueue
  import opened AtomicCondition

  /** Task t has done what it does next, or was found to be blocked. */
  ghost predicate Follows(before: State, t: TaskId, moved: bool, after: State)
    requires t < |before.tasks| == |before.q.local|
  {
    match Next(before, t)
    case None => !moved && after == before
    case Some(s) => moved && after == s
  }

  class Condition {
    var m_value: int
    const m_waiters: Queue
    var tasks: seq<Task>

    ghost function View(): State
      reads this, m_waiters
    {
      State(m_value, m_waiters.View(), tasks)
    }

    ghost predicate Valid()
      reads this, m_waiters
    {
      Inv(View())
    }

    ghost predicate Exists(t: TaskId)
      reads this, m_waiters
    {
      t < |tasks| == |m_waiters.local|
    }

    constructor (value: int, programs: seq<seq<Job>>)
      ensures Init(View()) && fresh(m_waiters) && m_value == value && |tasks| == |programs|
      ensures forall t :: 0 <= t < |tasks| ==> tasks[t].todo == programs[t]
    {
      m_value := value;
      m_waiters := new Queue(|programs|);
      tasks := seq(|programs|, i requires 0 <= i < |programs| => Task(programs[i], Ready));
    }

    method Goto(t: TaskId, pc: Pc)
      modifies `tasks
      ensures tasks == SetPc(old(tasks), t, pc)
    {
      if t < |tasks| {
        tasks := tasks[t := tasks[t].(pc := pc)];
      }
    }

    method Call(t: TaskId) returns (moved: bool)
      requires Exists(t) && tasks[t].pc == Ready
      modifies `m_value, `tasks
      ensures Follows(old(View()), t, moved, View())
    {
      if tasks[t].todo == [] {
        return false;
      }
      var pc := Notify;
      match tasks[t].todo[0] {
        case Wait(seen) => pc := Load(seen);
        case Set(value) => m_value := value;
      }
      tasks := tasks[t := Task(tasks[t].todo[1..], pc)];
      return true;
    }

    /** The head of wait's loop. */
    method LoadValue(t: TaskId)
      requires Exists(t) && tasks[t].pc.Load?
      modifies `tasks
      ensures Follows(old(View()), t, true, View())
    {
      var seen := tasks[t].pc.seen;
      Goto(t, if m_value != seen then Ready else Waiting(seen, FastPath));
    }

    method WaitStep(t: TaskId) returns (moved: bool)
      requires Exists(t) && tasks[t].pc.Waiting?
      modifies `tasks, m_waiters
      ensures Follows(old(View()), t, moved, View())
    {
      var seen := tasks[t].pc.seen;
      var move := m_waiters.WaitStep(t, tasks[t].pc.phase, m_value == seen);
      match move
      case Stay => return false;
      case Go(phase) =>
        Goto(t, Waiting(seen, phase));
        return true;
      case Leave =>
        Goto(t, Load(seen));
        return true;
    }

    /** The critical section of resume_all. */
    method PopAll(t: TaskId) returns (moved: bool)
      requires Exists(t) && tasks[t].pc == Notify
      modifies `tasks, m_waiters
      ensures Follows(old(View()), t, moved, View())
    {
      moved := m_waiters.Pop(t, |m_waiters.main|);
      if moved {
        Goto(t, Waking);
      }
    }

    method ResumeNext(t: TaskId)
      requires Exists(t) && tasks[t].pc == Waking
      modifies `tasks, m_waiters
      ensures Follows(old(View()), t, true, View())
    {
      var task := m_waiters.ResumeNext(t);
      match task
      case None => Goto(t, Ready);
      case Some(w) =>
        if w < |tasks| && tasks[w].pc.Waiting? {
          Goto(w, Load(tasks[w].pc.seen));
        }
    }

    /** Whatever task t does next. */
    method Act(t: TaskId) returns (moved: bool)
      requires Exists(t)
      modifies this, m_waiters
      ensures Follows(old(View()), t, moved, View())
    {
      moved := true;
      match tasks[t].pc
      case Ready => moved := Call(t);
      case Load(_) => LoadValue(t);
      case Waiting(_, _) => moved := WaitStep(t);
      case Notify => moved := PopAll(t);
      case Waking => ResumeNext(t);
    }

    method Step(t: TaskId) returns (moved: bool)
      requires Valid() && t < |tasks|
      modifies this, m_waiters
      ensures Valid() && Follows(old(View()), t, moved, View())
      ensures moved ==> Steps(old(View()), View())
    {
      ghost var before := View();
      moved := Act(t);
      if moved {
        NextKeepsInv(before, t, View());
      }
    }

    /** The object under any schedule: what it goes through is a run of the protocol, so that
        every theorem about runs is about it. */
    method Run(schedule: seq<TaskId>) returns (ghost run: seq<State>)
      requires Init(View())
      modifies this, m_waiters
      ensures Valid() && IsRun(Init, Steps, run)
      ensures run[0] == old(View()) && run[|run| - 1] == View()
    {
      run := [View()];
      InitHasInv(View());
      for i := 0 to |schedule|
        invariant Valid() && IsRun(Init, Steps, run)
        invariant run[0] == old(View()) && run[|run| - 1] == View()
      {
        var t := schedule[i];
        if t < |tasks| {
          var moved := Step(t);
          if moved {
            ExtendRun(Init, Steps, run, View());
            run := run + [View()];
          }
        }
      }
    }
  }
}
