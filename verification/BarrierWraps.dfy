/** The byte of the phase wraps to 0 after 256 rounds, and the assertion in wait fails on a token
    of the phase before: one task going round by itself gets there. */
module BarrierWraps {
  import opened Runs
  import opened WaitProtocol
  import opened Barrier
  import opened BarrierLoops
  import opened BarrierMoves

  function Ones(k: nat): seq<int> {
    seq(k, _ => 1)
  }

  /** A task alone, in phase k with nothing arrived yet. */
  function Alone(k: nat, task: Task): State {
    State(1, 1, k, NoWaiters(1), [task], Ones(k) + [0], Ones(k + 1), k, 0)
  }

  lemma AloneAt(k: nat, task: Task, task': Task)
    ensures At(Alone(k, task), 0, task') == Alone(k, task')
  {
  }

  lemma AloneNext(k: nat, task: Task)
    ensures NextPhase(Alone(k, task)) == Alone(k + 1, task)
  {
    assert UsedUp(Alone(k, task)).arrived == Ones(k + 1);
    assert Ones(k + 1) + [1] == Ones(k + 2);
  }

  /** An arrival that makes a phase, up to the return from it. */
  lemma Arrives(k: nat, todo: seq<Job>) returns (schedule: seq<TaskId>)
    ensures Exec(Alone(k, Task([Arrive(1), Wait] + todo, Ready, None)), schedule)
            == Some(Alone(k + 1, Task([Wait] + todo, Ready, Some(k))))
  {
    var task := Task([Arrive(1), Wait] + todo, Ready, None);
    assert [Arrive(1), Wait] + todo == [Arrive(1)] + ([Wait] + todo);
    schedule := Closes(Alone(k, task), 0, [Wait] + todo);
    AloneNext(k, task);
    AloneAt(k + 1, task, Task([Wait] + todo, Ready, Some(k)));
  }

  /** k whole rounds, past any number of wraps. */
  lemma {:induction false} RoundsDone(n: nat, k: nat) returns (schedule: seq<TaskId>)
    requires k <= n
    ensures Exec(Alone(0, Task(Rounds(n), Ready, None)), schedule) == Some(Alone(k, Task(Rounds(n - k), Ready, None)))
  {
    schedule := [];
    if k > 0 {
      var start, todo := Alone(0, Task(Rounds(n), Ready, None)), Rounds(n - k);
      schedule := RoundsDone(n, k - 1);
      var more := Arrives(k - 1, todo);
      ExecAppend(start, schedule, Alone(k - 1, Task([Arrive(1), Wait] + todo, Ready, None)), more);
      var waits := Alone(k, Task([Wait] + todo, Ready, Some(k - 1)));
      var last := PassesThrough(waits, 0, todo, k - 1);
      AloneAt(k, waits.tasks[0], Task(todo, Ready, None));
      ExecAppend(start, schedule + more, waits, last);
      schedule := schedule + more + last;
    }
  }

  /** In its round k the task comes to compare its token of phase k with phase k + 1. */
  lemma Compares(n: nat, k: nat) returns (schedule: seq<TaskId>)
    requires k < n
    ensures Exec(Alone(0, Task(Rounds(n), Ready, None)), schedule)
            == Some(Alone(k + 1, Task(Rounds(n - k - 1), Testing(k), None)))
  {
    var start, todo := Alone(0, Task(Rounds(n), Ready, None)), Rounds(n - k - 1);
    schedule := RoundsDone(n, k);
    var more := Arrives(k, todo);
    ExecAppend(start, schedule, Alone(k, Task([Arrive(1), Wait] + todo, Ready, None)), more);
    var waits := Alone(k + 1, Task([Wait] + todo, Ready, Some(k)));
    assert ([Wait] + todo)[1..] == todo;
    AloneAt(k + 1, waits.tasks[0], waits.tasks[0]);
    AloneAt(k + 1, waits.tasks[0], Task(todo, Testing(k), None));
    schedule := Goes(start, schedule + more, waits, 0, waits.tasks[0], waits, Task(todo, Testing(k), None));
  }

  /** The assertion fails.  A single task that does n rounds on a barrier of 1, a careful client by
      any measure, comes to compare its token of phase k with phase k + 1, for every k below n;
      whenever the byte has just wrapped, that is what the assertion does not hold for. */
  lemma AssertionFailsAtWrap(n: nat, k: nat) returns (run: seq<State>)
    requires k < n && (k + 1) % 256 == 0
    ensures IsRun(Init, CarefulSteps, run) && Loops(run[0], [n])
    ensures var last := run[|run| - 1];
            && |last.tasks| == 1 && last.tasks[0].pc == Testing(k) && last.phase == k + 1
            && !AssertionHolds(k, last.phase)
  {
    var start := Alone(0, Task(Rounds(n), Ready, None));
    assert Ones(0) == [] && Ones(1) == [1];
    var schedule := Compares(n, k);
    run := ExecIsRun(start, schedule, Alone(k + 1, Task(Rounds(n - k - 1), Testing(k), None)));
    assert Loops(start, [n]) && IsRun(Init, AnySteps, run);
    SafeRunsAreCareful(run, [n]);
    AssertionExactly(k, k + 1);
  }
}
