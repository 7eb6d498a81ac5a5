/** The binary semaphore: a boolean in place of the counter, one strong compare-exchange in
    place of the load and exchange loop, resume_one in place of resume_n.  It refines the
    counting semaphore as long as nobody releases it while it is available. */
module BinarySemaphore {
  import opened TaskSums
  import opened Runs
  import opened WaitProtocol
  import opened Semaphore
  import CountingRuns = SemaphoreTheorems

  /** Jobs, program counters and tasks are those of the counting semaphore; `Cas` is not
      used, because the exchange has no loop. */
  datatype Flag = Flag(available: bool, q: Waiters, tasks: seq<Task>)

  function Begin(s: Flag, t: TaskId): Option<Flag>
    requires t < |s.tasks|
  {
    var task := s.tasks[t];
    if task.todo == [] then None
    else
      var rest := task.todo[1..];
      match task.todo[0]
      case Acquire => Some(s.(tasks := s.tasks[t := Task(rest, Enter(true))]))
      case TryAcquire => Some(s.(tasks := s.tasks[t := Task(rest, Enter(false))]))
      case Release(n) =>
        if n == 0 then Some(s.(tasks := s.tasks[t := Task(rest, Ready)]))
        else Some(s.(available := true, tasks := s.tasks[t := Task(rest, Resume(1))]))
  }

  function FlagNext(s: Flag, t: TaskId): Option<Flag>
    requires t < |s.tasks| == |s.q.local|
  {
    match s.tasks[t].pc
    case Ready => Begin(s, t)
    case Enter(b) =>
      if s.available then Some(s.(available := false, tasks := SetPc(s.tasks, t, Ready)))
      else Some(s.(tasks := SetPc(s.tasks, t, if b then Wait(FastPath) else Ready)))
    case Cas(_, _) => None
    case Wait(phase) =>
      (match WaitIf(s.q, t, phase, !s.available)
       case Blocked => None
       case Continue(q, p) => Some(s.(q := q, tasks := SetPc(s.tasks, t, Wait(p))))
       case Return(q) => Some(s.(q := q, tasks := SetPc(s.tasks, t, Enter(true)))))
    case Resume(_) =>
      (match Take(s.q, t, 1)
       case None => None
       case Some(q) => Some(s.(q := q, tasks := SetPc(s.tasks, t, Waking))))
    case Waking =>
      if s.q.local[t] == [] then Some(s.(tasks := SetPc(s.tasks, t, Ready)))
      else Some(s.(q := DropFront(s.q, t), tasks := SetPc(s.tasks, s.q.local[t][0], Enter(true))))
  }

  /** The step breaks the client's side: a release while the flag is still up. */
  predicate Overfills(s: Flag, t: TaskId)
    requires t < |s.tasks|
  {
    var task := s.tasks[t];
    s.available && task.pc == Ready && task.todo != [] && task.todo[0].Release? && task.todo[0].update > 0
  }

  // The counting view

  /** Every positive update counts as 1. */
  function OneUnit(job: Job): Job {
    if job.Release? && job.update > 0 then Release(1) else job
  }

  function Units(todo: seq<Job>): seq<Job> {
    seq(|todo|, i requires 0 <= i < |todo| => OneUnit(todo[i]))
  }

  function UnitTask(task: Task): Task {
    task.(todo := Units(task.todo))
  }

  function UnitTasks(tasks: seq<Task>): seq<Task> {
    seq(|tasks|, i requires 0 <= i < |tasks| => UnitTask(tasks[i]))
  }

  function AsCounter(s: Flag): State {
    State(if s.available then 1 else 0, s.q, UnitTasks(s.tasks))
  }

  /** A binary-semaphore state: no CAS loop, and at most one wakeup owed per releaser. */
  predicate Binary(s: Flag) {
    && |s.tasks| == |s.q.local|
    && forall task <- s.tasks :: !task.pc.Cas? && (task.pc.Resume? ==> task.pc.n == 1)
  }

  ghost predicate FlagInv(s: Flag) {
    Binary(s) && Semaphore.Inv(AsCounter(s))
  }

  ghost predicate FlagInit(s: Flag) {
    s.q == NoWaiters(|s.tasks|) && forall t :: 0 <= t < |s.tasks| ==> s.tasks[t].pc == Ready
  }

  /** One step of the task, or two: the load and the exchange of a successful try. */
  ghost predicate OneOrTwoSteps(a: State, t: TaskId, a': State) {
    && t < |a.tasks| == |a.q.local|
    && (|| Next(a, t, false) == Some(a')
        || exists m :: Next(a, t, false) == Some(m) && |m.tasks| == |a.tasks| == |m.q.local|
                       && Next(m, t, false) == Some(a'))
  }

  lemma UnitsFirst(todo: seq<Job>)
    requires todo != []
    ensures Units(todo) != [] && Units(todo)[0] == OneUnit(todo[0]) && Units(todo)[1..] == Units(todo[1..])
  {
  }

  lemma UnitTasksSet(tasks: seq<Task>, t: TaskId, task: Task)
    requires t < |tasks|
    ensures UnitTasks(tasks[t := task]) == UnitTasks(tasks)[t := UnitTask(task)]
  {
  }

  lemma SetPcUnits(tasks: seq<Task>, t: TaskId, pc: Pc)
    ensures UnitTasks(SetPc(tasks, t, pc)) == SetPc(UnitTasks(tasks), t, pc)
  {
  }

  lemma CallSimulated(s: Flag, t: TaskId, s': Flag)
    requires Binary(s) && t < |s.tasks| && s.tasks[t].pc == Ready && FlagNext(s, t) == Some(s')
    ensures Next(AsCounter(s), t, false) == Some(AsCounter(s')) <==> !Overfills(s, t)
    ensures Overfills(s, t) ==>
              exists m :: Next(AsCounter(s), t, false) == Some(m) && m.counter == 2 && m.tasks[t].pc == Resume(1)
    ensures Binary(s')
  {
    UnitsFirst(s.tasks[t].todo);
    UnitTasksSet(s.tasks, t, s'.tasks[t]);
    assert UnitTasks(s.tasks)[t] == UnitTask(s.tasks[t]);
    if Overfills(s, t) {
      assert Next(AsCounter(s), t, false).value.counter == 2;
    }
  }

  lemma TrySimulated(s: Flag, t: TaskId, s': Flag)
    requires Binary(s) && t < |s.tasks| && s.tasks[t].pc.Enter? && FlagNext(s, t) == Some(s')
    ensures OneOrTwoSteps(AsCounter(s), t, AsCounter(s')) && Binary(s')
  {
    var a := AsCounter(s);
    var b := s.tasks[t].pc.blocking;
    if s.available {
      var m := a.(tasks := SetPc(a.tasks, t, Cas(1, b)));
      assert Next(a, t, false) == Some(m);
      SetPcUnits(s.tasks, t, Ready);
      assert m.tasks[t := m.tasks[t].(pc := Ready)] == a.tasks[t := a.tasks[t].(pc := Ready)];
      assert Next(m, t, false) == Some(AsCounter(s'));
    } else {
      SetPcUnits(s.tasks, t, s'.tasks[t].pc);
    }
  }

  lemma OtherSimulated(s: Flag, t: TaskId, s': Flag)
    requires Binary(s) && t < |s.tasks| && !s.tasks[t].pc.Ready? && !s.tasks[t].pc.Enter?
    requires FlagNext(s, t) == Some(s')
    ensures Next(AsCounter(s), t, false) == Some(AsCounter(s')) && Binary(s')
  {
    var u := if s.tasks[t].pc == Waking && s.q.local[t] != [] then s.q.local[t][0] else t;
    if u < |s.tasks| {
      SetPcUnits(s.tasks, u, s'.tasks[u].pc);
    }
  }

  /** Step by step, the flag does what a counter would do, exactly unless the step overfills. */
  lemma StepRefines(s: Flag, t: TaskId, s': Flag)
    requires Binary(s) && t < |s.tasks| && FlagNext(s, t) == Some(s')
    ensures OneOrTwoSteps(AsCounter(s), t, AsCounter(s')) <==> !Overfills(s, t)
    ensures Binary(s')
  {
    if s.tasks[t].pc == Ready {
      CallSimulated(s, t, s');
      if Overfills(s, t) {
        var m := Next(AsCounter(s), t, false).value;
        assert Take(m.q, t, 1).Some? ==> Next(m, t, false).Some? && Next(m, t, false).value.counter == 2;
      }
    } else if s.tasks[t].pc.Enter? {
      TrySimulated(s, t, s');
    } else {
      OtherSimulated(s, t, s');
    }
  }

  /** And the flag is blocked exactly when the counter is. */
  lemma BlockedTogether(s: Flag, t: TaskId)
    requires Binary(s) && t < |s.tasks|
    ensures FlagNext(s, t) == None <==> Next(AsCounter(s), t, false) == None
  {
    assert AsCounter(s).tasks[t] == UnitTask(s.tasks[t]);
  }

  lemma StepKeepsFlagInv(s: Flag, t: TaskId, s': Flag)
    requires FlagInv(s) && t < |s.tasks| && FlagNext(s, t) == Some(s') && !Overfills(s, t)
    ensures FlagInv(s')
  {
    StepRefines(s, t, s');
    var a := AsCounter(s);
    NextKeepsInv(a, t, false);
    if Next(a, t, false) != Some(AsCounter(s')) {
      var m :| Next(a, t, false) == Some(m) && |m.tasks| == |a.tasks| == |m.q.local|
               && Next(m, t, false) == Some(AsCounter(s'));
      NextKeepsInv(m, t, false);
    }
  }

  lemma FlagInitHasInv(s: Flag)
    requires FlagInit(s)
    ensures FlagInv(s) && Semaphore.Init(AsCounter(s))
  {
    InitHasInv(AsCounter(s));
  }

  /** Steps of clients that release only while the flag is down. */
  ghost predicate FlagSteps(s: Flag, s': Flag) {
    && |s.tasks| == |s.q.local|
    && exists t: TaskId :: t < |s.tasks| && FlagNext(s, t) == Some(s') && !Overfills(s, t)
  }

  // Programs that never overfill

  ghost predicate FlagAnySteps(s: Flag, s': Flag) {
    |s.tasks| == |s.q.local| && exists t: TaskId :: t < |s.tasks| && FlagNext(s, t) == Some(s')
  }

  /** Were each task to run as far ahead of the others as suits it best, the flag would still be
      raised only while it is down. */
  ghost predicate FlagFits(s: Flag) {
    FlagInv(s) && CountingRuns.Ceiling(AsCounter(s)) <= 1
  }

  lemma FitsDoesNotOverfill(s: Flag, t: TaskId)
    requires FlagFits(s) && t < |s.tasks|
    ensures !Overfills(s, t)
  {
    if Overfills(s, t) {
      UnitsFirst(s.tasks[t].todo);
      var a := AsCounter(s);
      assert a.tasks[t] == UnitTask(s.tasks[t]) && CountingRuns.TaskRise(a.tasks[t]) >= 1;
      SumAtLeast(a.tasks, t, CountingRuns.TaskRise);
    }
  }

  lemma StepKeepsFit(s: Flag, t: TaskId, s': Flag)
    requires FlagFits(s) && t < |s.tasks| && FlagNext(s, t) == Some(s')
    ensures !Overfills(s, t) && FlagFits(s')
  {
    FitsDoesNotOverfill(s, t);
    StepKeepsFlagInv(s, t, s');
    StepRefines(s, t, s');
    var a := AsCounter(s);
    if Next(a, t, false) == Some(AsCounter(s')) {
      CountingRuns.StepKeepsCeiling(a, t, false, AsCounter(s'));
    } else {
      var m :| Next(a, t, false) == Some(m) && |m.tasks| == |a.tasks| == |m.q.local|
               && Next(m, t, false) == Some(AsCounter(s'));
      NextKeepsInv(a, t, false);
      CountingRuns.StepKeepsCeiling(a, t, false, m);
      CountingRuns.StepKeepsCeiling(m, t, false, AsCounter(s'));
    }
  }

  /** A condition on the programs: if the flag at the start and the most that they can release
      ahead of what they acquire come to 1 at most, no release of any run overfills. */
  lemma ProgramsNeverOverfill(run: seq<Flag>)
    requires IsRun(FlagInit, FlagAnySteps, run) && CountingRuns.Ceiling(AsCounter(run[0])) <= 1
    ensures IsRun(FlagInit, FlagSteps, run)
    ensures forall i, t :: 0 <= i < |run| && 0 <= t < |run[i].tasks| ==> !Overfills(run[i], t)
  {
    FlagInitHasInv(run[0]);
    forall s, s' | FlagFits(s) && FlagAnySteps(s, s') ensures FlagSteps(s, s') && FlagFits(s') {
      var t: TaskId :| t < |s.tasks| && FlagNext(s, t) == Some(s');
      StepKeepsFit(s, t, s');
    }
    RunStrengthens(FlagInit, FlagAnySteps, FlagSteps, FlagFits, run);
    InvariantHolds(FlagInit, FlagAnySteps, FlagFits, run);
    forall i, t: TaskId | 0 <= i < |run| && t < |run[i].tasks| ensures !Overfills(run[i], t) {
      FitsDoesNotOverfill(run[i], t);
    }
  }

  // The run as a run of the counter

  /** State i of the run is, seen through the counter, state at[i] of the big run, and the
      places run upwards from the first to the last. */
  ghost predicate Placed(run: seq<Flag>, big: seq<State>, at: seq<nat>) {
    && |at| == |run| > 0 && at[0] == 0 && at[|at| - 1] == |big| - 1
    && (forall i :: 0 <= i < |at| ==> at[i] < |big| && big[at[i]] == AsCounter(run[i]))
    && forall i :: 0 < i < |at| ==> at[i - 1] < at[i] <= at[i - 1] + 2
  }

  /** Every such run is, state by state, a run of the counting semaphore, in which each of its
      steps has become one step or two. */
  lemma {:induction false} RunRefines(run: seq<Flag>) returns (big: seq<State>, at: seq<nat>)
    requires IsRun(FlagInit, FlagSteps, run)
    ensures IsRun(Semaphore.Init, CountingRuns.StrongSteps, big) && Placed(run, big, at)
    ensures |run| <= |big| && FlagInv(run[|run| - 1])
  {
    if |run| == 1 {
      big, at := StartRefines(run);
    } else {
      SplitRun(FlagInit, FlagSteps, run);
      var before, places := RunRefines(run[..|run| - 1]);
      big, at := StepExtends(run, before, places);
    }
  }

  lemma StartRefines(run: seq<Flag>) returns (big: seq<State>, at: seq<nat>)
    requires |run| == 1 && FlagInit(run[0])
    ensures IsRun(Semaphore.Init, CountingRuns.StrongSteps, big) && Placed(run, big, at)
    ensures |run| <= |big| && FlagInv(run[|run| - 1])
  {
    FlagInitHasInv(run[0]);
    big, at := [AsCounter(run[0])], [0];
  }

  lemma StepExtends(run: seq<Flag>, before: seq<State>, places: seq<nat>) returns (big: seq<State>, at: seq<nat>)
    requires |run| > 1 && FlagSteps(run[|run| - 2], run[|run| - 1]) && FlagInv(run[|run| - 2])
    requires IsRun(Semaphore.Init, CountingRuns.StrongSteps, before) && Placed(run[..|run| - 1], before, places)
    requires |run| - 1 <= |before|
    ensures IsRun(Semaphore.Init, CountingRuns.StrongSteps, big) && Placed(run, big, at)
    ensures |run| <= |big| && FlagInv(run[|run| - 1])
  {
    var path := StepAsPath(run[|run| - 2], run[|run| - 1]);
    assert before[|before| - 1] == AsCounter(run[|run| - 2]);
    ExtendByPath(Semaphore.Init, CountingRuns.StrongSteps, before, path);
    big, at := before + path, places + [|before| + |path| - 1];
    PlacedFurther(run, before, places, path);
  }

  lemma PlacedFurther(run: seq<Flag>, before: seq<State>, places: seq<nat>, path: seq<State>)
    requires |run| > 1 && Placed(run[..|run| - 1], before, places)
    requires 1 <= |path| <= 2 && path[|path| - 1] == AsCounter(run[|run| - 1])
    ensures Placed(run, before + path, places + [|before| + |path| - 1])
  {
    var n := |run| - 1;
    var at := places + [|before| + |path| - 1];
    forall i | 0 <= i < |at| ensures at[i] < |before + path| && (before + path)[at[i]] == AsCounter(run[i]) {
      if i < n {
        assert run[..n][i] == run[i];
      }
    }
  }

  lemma StepAsPath(s: Flag, s': Flag) returns (path: seq<State>)
    requires FlagInv(s) && FlagSteps(s, s')
    ensures FlagInv(s') && 1 <= |path| <= 2 && path[|path| - 1] == AsCounter(s')
    ensures CountingRuns.StrongSteps(AsCounter(s), path[0])
    ensures forall i :: 0 <= i < |path| - 1 ==> CountingRuns.StrongSteps(path[i], path[i + 1])
  {
    var t: TaskId :| t < |s.tasks| && FlagNext(s, t) == Some(s') && !Overfills(s, t);
    StepRefines(s, t, s');
    StepKeepsFlagInv(s, t, s');
    var a, a' := AsCounter(s), AsCounter(s');
    if Next(a, t, false) == Some(a') {
      path := [a'];
    } else {
      var m :| Next(a, t, false) == Some(m) && |m.tasks| == |a.tasks| == |m.q.local|
               && Next(m, t, false) == Some(a');
      path := [m, a'];
    }
  }

  ghost predicate FlagStuck(s: Flag) {
    && |s.tasks| == |s.q.local|
    && forall t: TaskId :: t < |s.tasks| ==> FlagNext(s, t) == None
  }

  /** Hence the counting semaphore's results carry over: runs end, and a final state has
      only finished tasks and queued ones, the latter only if no permit is left. */
  lemma BinaryRunsEnd(run: seq<Flag>)
    requires IsRun(FlagInit, FlagSteps, run)
    ensures |run| - 1 <= CountingRuns.Measure(AsCounter(run[0]))
    ensures var last := run[|run| - 1];
            FlagStuck(last) ==>
              && (last.q.main != [] ==> !last.available)
              && forall t :: 0 <= t < |last.tasks| ==>
                   CountingRuns.Finished(last.tasks[t]) || (last.tasks[t].pc == Wait(Parked) && t in last.q.main)
  {
    var big, at := RunRefines(run);
    CountingRuns.RunsAreFinite(big);
    var last := run[|run| - 1];
    if FlagStuck(last) {
      forall t: TaskId | t < |last.tasks| ensures Next(AsCounter(last), t, false) == None {
        BlockedTogether(last, t);
      }
      CountingRuns.StuckExactly(AsCounter(last));
      forall t | 0 <= t < |last.tasks|
        ensures CountingRuns.Finished(last.tasks[t]) || (last.tasks[t].pc == Wait(Parked) && t in last.q.main)
      {
        assert AsCounter(last).tasks[t] == UnitTask(last.tasks[t]);
        assert ParkedAt(PhasesOf(AsCounter(last).tasks), t) <==> last.tasks[t].pc == Wait(Parked);
      }
    }
  }
}
