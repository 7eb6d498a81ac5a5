/** The barrier as the object its users hold, with one method per atomic action. */
module BarrierObject {
  import opened TaskSums
  import opened Runs
  import opened WaitProtocol
  import opened SuspendQueue
  import opened Barrier

  /** Task t has done what it does next, or was found to be blocked. */
  ghost predicate Follows(before: State, t: TaskId, moved: bool, after: State)
    requires t < |before.tasks| == |before.q.local|
  {
    match Next(before, t)
    case None => !moved && after == before
    case Some(s) => moved && after == s
  }

  lemma ArrivalFits(s: State, t: TaskId)
    requires Inv(s) && t < |s.tasks| && s.tasks[t].pc.Loaded?
    ensures 0 < s.tasks[t].pc.update <= s.expected
    ensures s.tasks[t].pc.phase == s.phase < |s.arrived|
  {
    assert TaskOk(s, s.tasks[t]);
    SumAtLeast(s.tasks, t, Pending);
    SumNonNegative(s.tasks, Opening);
  }

  lemma StepKeepsSize(s: State, t: TaskId, s': State)
    requires Sized(s) && t < |s.tasks| && Next(s, t) == Some(s')
    ensures Sized(s')
  {
  }

  class PhaseBarrier {
    var m_initial_expected: int
    var m_expected: int
    var m_phase: nat
    const m_waiters: Queue
    var tasks: seq<Task>
    ghost var arrived: seq<int>
    ghost var opens: seq<int>
    ghost var completions: nat
    ghost var drops: nat

    ghost function View(): State
      reads this, m_waiters
    {
      State(m_expected, m_initial_expected, m_phase, m_waiters.View(), tasks, arrived, opens, completions, drops)
    }

    ghost predicate Valid()
      reads this, m_waiters
    {
      Inv(View())
    }

    ghost predicate Exists(t: TaskId)
      reads this, m_waiters
    {
      t < |tasks| == |m_waiters.local|
    }

    constructor (expected: nat, programs: seq<seq<Job>>)
      ensures Init(View()) && fresh(m_waiters) && m_expected == expected && |tasks| == |programs|
      ensures forall t :: 0 <= t < |tasks| ==> tasks[t].todo == programs[t]
    {
      m_initial_expected, m_expected, m_phase := expected, expected, 0;
      m_waiters := new Queue(|programs|);
      tasks := seq(|programs|, i requires 0 <= i < |programs| => Task(programs[i], Ready, None));
      arrived, opens, completions, drops := [0], [expected], 0, 0;
    }

    /** The client's condition, which looks at the tasks, the expected count and the phase. */
    predicate MayStep(t: TaskId)
      requires t < |tasks|
      reads this
    {
      ClientAllows(State(m_expected, m_initial_expected, m_phase, NoWaiters(0), tasks, [], [], 0, 0), t)
    }

    method Goto(t: TaskId, pc: Pc)
      modifies `tasks
      ensures tasks == SetPc(old(tasks), t, pc)
    {
      if t < |tasks| {
        tasks := tasks[t := tasks[t].(pc := pc)];
      }
    }

    /** Entering arrive with its load of the phase, arrive_and_drop with its fetch_sub, or wait. */
    method Call(t: TaskId) returns (moved: bool)
      requires Exists(t) && tasks[t].pc == Ready
      modifies `m_initial_expected, `tasks, `drops
      ensures Follows(old(View()), t, moved, View())
    {
      if tasks[t].todo == [] {
        return false;
      }
      var rest, token := tasks[t].todo[1..], tasks[t].token;
      match tasks[t].todo[0] {
        case Arrive(update) => tasks := tasks[t := Task(rest, Loaded(update, m_phase), token)];
        case ArriveAndDrop =>
          m_initial_expected := m_initial_expected - 1;
          drops := drops + 1;
          tasks := tasks[t := Task(rest, Dropped, token)];
        case Wait =>
          if token == None {
            return false;
          }
          tasks := tasks[t := Task(rest, Testing(token.value), None)];
      }
      return true;
    }

    method LoadPhase(t: TaskId)
      requires Exists(t) && tasks[t].pc == Dropped
      modifies `tasks
      ensures Follows(old(View()), t, true, View())
    {
      Goto(t, Loaded(1, m_phase));
    }

    /** arrive's fetch_sub; the update fits if the client keeps to the interface.  Who is not the last
        returns the phase that was loaded. */
    method CountArrival(t: TaskId)
      requires Exists(t) && tasks[t].pc.Loaded?
      modifies `m_expected, `tasks, `arrived
      ensures Follows(old(View()), t, true, View())
      ensures m_expected == old(m_expected) - old(tasks[t].pc).update
      ensures m_expected != 0 ==>
                t < |tasks| && tasks[t] == Task(old(tasks[t].todo), Ready, Some(old(tasks[t].pc).phase))
      ensures old(Valid()) ==> 0 < old(tasks[t].pc).update <= old(m_expected)
    {
      if Valid() {
        ArrivalFits(View(), t);
      }
      var update, phase := tasks[t].pc.update, tasks[t].pc.phase;
      var expected := m_expected;
      m_expected := m_expected - update;
      arrived := if phase < |arrived| then arrived[phase := arrived[phase] + update] else arrived;
      if expected == update {
        Goto(t, Last(RunCompletion, phase));
      } else {
        tasks := tasks[t := Task(tasks[t].todo, Ready, Some(phase))];
      }
    }

    /** The tail of arrive, run by the last arriver. */
    method Complete(t: TaskId) returns (moved: bool)
      requires Exists(t) && tasks[t].pc.Last?
      modifies this, m_waiters
      ensures Follows(old(View()), t, moved, View())
    {
      var phase := tasks[t].pc.phase;
      moved := true;
      match tasks[t].pc.stage {
        case RunCompletion =>
          completions := completions + 1;
          Goto(t, Last(LoadInitial, phase));
        case LoadInitial =>
          Goto(t, Last(StoreExpected(m_initial_expected), phase));
        case StoreExpected(next) =>
          m_expected := next;
          Goto(t, Last(StorePhase, phase));
        case StorePhase =>
          m_phase := phase + 1;
          arrived, opens := arrived + [0], opens + [m_expected];
          Goto(t, Last(Notify, phase));
        case Notify =>
          moved := m_waiters.Pop(t, |m_waiters.main|);
          if moved {
            Goto(t, Last(Waking, phase));
          }
        case Waking =>
          var task := m_waiters.ResumeNext(t);
          match task
          case None => tasks := tasks[t := Task(tasks[t].todo, Ready, Some(phase))];
          case Some(w) => Goto(w, Ready);
      }
    }

    /** wait's fast path: the byte before the current one, as an int. */
    method TestPhase(t: TaskId)
      requires Exists(t) && tasks[t].pc.Testing?
      modifies `tasks
      ensures Follows(old(View()), t, true, View())
    {
      var phase := tasks[t].pc.phase;
      if Byte(phase) == Byte(m_phase) - 1 {
        Goto(t, Ready);
      } else {
        Goto(t, Waiting(phase, FastPath));
      }
    }

    method WaitStep(t: TaskId) returns (moved: bool)
      requires Exists(t) && tasks[t].pc.Waiting?
      modifies `tasks, m_waiters
      ensures Follows(old(View()), t, moved, View())
    {
      var phase := tasks[t].pc.phase;
      var move := m_waiters.WaitStep(t, tasks[t].pc.at, Byte(m_phase) == Byte(phase));
      match move
      case Stay => return false;
      case Go(at) =>
        Goto(t, Waiting(phase, at));
        return true;
      case Leave =>
        Goto(t, Ready);
        return true;
    }

    /** Whatever task t does next. */
    method Act(t: TaskId) returns (moved: bool)
      requires Exists(t)
      modifies this, m_waiters
      ensures Follows(old(View()), t, moved, View())
    {
      moved := true;
      match tasks[t].pc
      case Ready => moved := Call(t);
      case Dropped => LoadPhase(t);
      case Loaded(_, _) => CountArrival(t);
      case Last(_, _) => moved := Complete(t);
      case Testing(_) => TestPhase(t);
      case Waiting(_, _) => moved := WaitStep(t);
    }

    method Step(t: TaskId) returns (moved: bool)
      requires Valid() && t < |tasks| && MayStep(t)
      modifies this, m_waiters
      ensures Valid() && Follows(old(View()), t, moved, View())
      ensures moved ==> Steps(old(View()), View())
    {
      ghost var before := View();
      moved := Act(t);
      if moved {
        NextKeepsInv(before, t, View());
      }
    }

    /** The object under any schedule whatever. */
    method Run(schedule: seq<TaskId>) returns (ghost run: seq<State>)
      requires Init(View())
      modifies this, m_waiters
      ensures IsRun(Init, AnySteps, run)
      ensures run[0] == old(View()) && run[|run| - 1] == View()
    {
      run := [View()];
      for i := 0 to |schedule|
        invariant IsRun(Init, AnySteps, run) && |tasks| == |m_waiters.local|
        invariant run[0] == old(View()) && run[|run| - 1] == View()
      {
        var t := schedule[i];
        if t < |tasks| {
          ghost var before := View();
          var moved := Act(t);
          if moved {
            assert AnySteps(before, View());
            StepKeepsSize(before, t, View());
            ExtendRun(Init, AnySteps, run, View());
            run := run + [View()];
          }
        }
      }
    }

    /** The object under any schedule, every step of which the client may take: what it goes
        through is a run that keeps to the interface. */
    method RunAllowed(schedule: seq<TaskId>) returns (ghost run: seq<State>)
      requires Init(View())
      modifies this, m_waiters
      ensures Valid() && IsRun(Init, Steps, run)
      ensures run[0] == old(View()) && run[|run| - 1] == View()
    {
      run := [View()];
      InitHasInv(View());
      for i := 0 to |schedule|
        invariant Valid() && IsRun(Init, Steps, run)
        invariant run[0] == old(View()) && run[|run| - 1] == View()
      {
        var t := schedule[i];
        if t < |tasks| && MayStep(t) {
          var moved := Step(t);
          if moved {
            ExtendRun(Init, Steps, run, View());
            run := run + [View()];
          }
        }
      }
    }
  }
}
