/** When do the users of a reader-writer mutex all come through?  A writer can fail its
    re-check after a releaser has popped nothing and before that releaser stores 0; it then
    waits for a wakeup that nobody owes.  This file says exactly which final states there
    are, that every run ends in one, and for which programs every run drains. */
module SharedMutexDrain {
  import opened TaskSums
  import opened Runs
  import opened WaitProtocol
  import opened SharedMutex
  import opened SharedMutexTheorems

  predicate Finished(task: Task) {
    task.pc == Ready && task.todo == []
  }

  predicate AllFinished(s: State) {
    forall t :: 0 <= t < |s.tasks| ==> Finished(s.tasks[t])
  }

  predicate NoneLate(s: State) {
    forall t :: 0 <= t < |s.tasks| ==> !s.tasks[t].late
  }

  ghost predicate Stuck(s: State) {
    Sized(s) && forall t: TaskId :: t < |s.tasks| ==> Next(s, t, false) == None
  }

  // Final states

  lemma WriterLockHolderSteps(s: State)
    requires Inv(s) && s.writers.owner.Some?
    ensures s.writers.owner.value < |s.tasks| && Next(s, s.writers.owner.value, false).Some?
  {
    assert HoldsLock(WritePhases(s.tasks)[s.writers.owner.value]);
  }

  lemma ReaderLockHolderSteps(s: State)
    requires Inv(s) && s.readers.owner.Some?
    ensures s.readers.owner.value < |s.tasks| && Next(s, s.readers.owner.value, false).Some?
  {
    assert HoldsLock(ReadPhases(s.tasks)[s.readers.owner.value]);
  }

  predicate Asleep(task: Task) {
    Finished(task) || task.pc == WriteWait(Parked) || task.pc == ReadWait(Parked)
  }

  lemma StuckMeansAsleep(s: State, t: TaskId)
    requires Inv(s) && Stuck(s) && t < |s.tasks|
    ensures Asleep(s.tasks[t])
  {
    if s.writers.owner.Some? {
      WriterLockHolderSteps(s);
    }
    if s.readers.owner.Some? {
      ReaderLockHolderSteps(s);
    }
    assert Next(s, t, false) == None;
  }

  lemma AsleepFreesState(s: State)
    requires Accounted(s) && forall t :: 0 <= t < |s.tasks| ==> Asleep(s.tasks[t])
    ensures s.state == 0
  {
    SumZero(s.tasks, Exclusive);
    SumZero(s.tasks, Share);
    SumZero(s.tasks, Moving);
  }

  lemma AsleepInMain(s: State, t: TaskId)
    requires QueuesOk(s) && forall t :: 0 <= t < |s.tasks| ==> Asleep(s.tasks[t])
    requires t < |s.tasks|
    ensures s.tasks[t].pc == WriteWait(Parked) ==> t in s.writers.main
    ensures s.tasks[t].pc == ReadWait(Parked) ==> t in s.readers.main
  {
    AllInMain(s.writers, WritePhases(s.tasks));
    AllInMain(s.readers, ReadPhases(s.tasks));
    assert ParkedAt(WritePhases(s.tasks), t) <==> s.tasks[t].pc == WriteWait(Parked);
    assert ParkedAt(ReadPhases(s.tasks), t) <==> s.tasks[t].pc == ReadWait(Parked);
  }

  /** With everybody asleep the mutex is free, no reader is left, and the writers left are
      queued and were late. */
  lemma AsleepLeavesLateWriters(s: State)
    requires Inv(s) && forall t :: 0 <= t < |s.tasks| ==> Asleep(s.tasks[t])
    ensures s.state == 0 && s.readers.main == []
    ensures forall t: TaskId :: t < |s.tasks| ==>
              Finished(s.tasks[t]) || (s.tasks[t].pc == WriteWait(Parked) && s.tasks[t].late && t in s.writers.main)
  {
    AsleepFreesState(s);
    forall t: TaskId | t < |s.tasks|
      ensures Finished(s.tasks[t]) || (s.tasks[t].pc == WriteWait(Parked) && s.tasks[t].late && t in s.writers.main)
    {
      AsleepInMain(s, t);
    }
  }

  /** The exact final states, and when they are drained. */
  lemma StuckExactly(s: State)
    requires Inv(s)
    ensures Stuck(s) <==>
      && s.state == 0 && s.readers.main == []
      && forall t: TaskId :: t < |s.tasks| ==>
           Finished(s.tasks[t]) || (s.tasks[t].pc == WriteWait(Parked) && s.tasks[t].late && t in s.writers.main)
    ensures Stuck(s) ==> (AllFinished(s) <==> NoneLate(s))
  {
    if Stuck(s) {
      forall t: TaskId | t < |s.tasks| ensures Asleep(s.tasks[t]) {
        StuckMeansAsleep(s, t);
      }
      AsleepLeavesLateWriters(s);
    }
  }

  /** No reader is ever stranded: a queued reader, or one about to push itself, has a negative
      state or a broadcast still to come. */
  lemma ReadersNeverStranded(run: seq<State>, i: nat)
    requires IsRun(Init, Steps, run) && i < |run|
    ensures run[i].readers.main != [] || SomeAt(run[i].tasks, ReadWait(Pushing)) ==>
              run[i].state < 0 || SomeAt(run[i].tasks, Broadcast)
    ensures Stuck(run[i]) ==> forall t :: 0 <= t < |run[i].tasks| ==> !run[i].tasks[t].pc.ReadWait?
  {
    RunHasInv(run, i);
    StuckExactly(run[i]);
  }

  /** Writers are popped in the order in which they pushed themselves, and readers too. */
  lemma HandOffsFollowPushes(run: seq<State>, i: nat)
    requires IsRun(Init, Steps, run) && i < |run|
    ensures run[i].writers.popped + run[i].writers.main == run[i].writers.pushed
    ensures run[i].readers.popped + run[i].readers.main == run[i].readers.pushed
  {
    RunHasInv(run, i);
  }

  // Termination

  /** Work left in the current job, for `n` tasks; a broadcast may wake n readers. */
  function PcWork(pc: Pc, n: int): int {
    match pc
    case Ready => 0
    case HandOff => 1
    case Waking => 1
    case Broadcast => n + 2
    case StoreZero => n + 3
    case PopWriter => n + 4
    case Writing => n + 5
    case InTransition => n + 5
    case Reading => n + 6
    case Drop(_) => n + 6
    case WriteWait(phase) => if phase == SelfResume then n + 6 else n + 7
    case _ => n + 7
  }

  function TaskWork(n: int): Task -> int {
    (task: Task) => (n + 8) * |task.todo| + PcWork(task.pc, n)
  }

  /** Actions before the next unit of work, given that the word stays as it is. */
  function PcRank(pc: Pc, state: int): int {
    match pc
    case TryLock(_) => 5
    case WriteWait(phase) => PhaseRank(phase, false)
    case ReadWait(phase) => PhaseRank(phase, state >= 0)
    case Load(_) => LoadRank(state >= 0)
    case ShareCas(c, _) => if state < 0 then 5 else if c == state then 1 else 2
    case Reading => 3
    case Drop(c) => if c == state then 1 else 2
    case _ => 0
  }

  function TaskRank(state: int): Task -> int {
    (task: Task) => PcRank(task.pc, state)
  }

  function TotalWork(s: State): int {
    Sum(s.tasks, TaskWork(|s.tasks|)) + Sum(s.readers.local, Length)
  }

  function TotalRank(s: State): int {
    Sum(s.tasks, TaskRank(s.state))
  }

  function Measure(s: State): int {
    TotalWork(s) * (6 * |s.tasks| + 1) + TotalRank(s)
  }

  ghost predicate Lowers(s: State, s': State) {
    || TotalWork(s') < TotalWork(s)
    || (TotalWork(s') == TotalWork(s) && s'.state == s.state && TotalRank(s') < TotalRank(s))
  }

  /** The acting task alone gets closer to the end of its job, or to the next action that
      changes something. */
  predicate TaskLowers(s: State, t: TaskId, s': State)
    requires t < |s.tasks| == |s'.tasks|
  {
    var n := |s.tasks|;
    || TaskWork(n)(s'.tasks[t]) < TaskWork(n)(s.tasks[t])
    || (TaskWork(n)(s'.tasks[t]) == TaskWork(n)(s.tasks[t]) && s'.state == s.state
        && TaskRank(s.state)(s'.tasks[t]) < TaskRank(s.state)(s.tasks[t]))
  }

  lemma OneTaskLowers(s: State, t: TaskId, s': State)
    requires t < |s.tasks| == |s'.tasks| && s'.tasks == s.tasks[t := s'.tasks[t]]
    requires s'.readers.local == s.readers.local && TaskLowers(s, t, s')
    ensures Lowers(s, s')
  {
    SumUpdate(s.tasks, t, s'.tasks[t], TaskWork(|s.tasks|));
    SumUpdate(s.tasks, t, s'.tasks[t], TaskRank(s.state));
  }

  lemma WriteWaitLowers(s: State, t: TaskId, s': State)
    requires Sized(s) && t < |s.tasks| && s.tasks[t].pc.WriteWait?
    requires WriteWaitNext(s, t, s.tasks[t].pc.phase) == Some(s')
    ensures Lowers(s, s')
  {
    OneTaskLowers(s, t, s');
  }

  lemma ReadWaitLowers(s: State, t: TaskId, s': State)
    requires Sized(s) && t < |s.tasks| && s.tasks[t].pc.ReadWait?
    requires ReadWaitNext(s, t, s.tasks[t].pc.phase) == Some(s')
    ensures Lowers(s, s')
  {
    OneTaskLowers(s, t, s');
  }

  lemma LockLowers(s: State, t: TaskId, s': State)
    requires Sized(s) && t < |s.tasks|
    requires s.tasks[t].pc.TryLock? || s.tasks[t].pc.Load? || s.tasks[t].pc.ShareCas?
    requires s.tasks[t].pc.ShareCas? ==> s.tasks[t].pc.current >= 0
    requires Next(s, t, false) == Some(s')
    ensures Lowers(s, s')
  {
    OneTaskLowers(s, t, s');
  }

  lemma UnlockLowers(s: State, t: TaskId, s': State)
    requires Sized(s) && t < |s.tasks| && s.readers.local[t] == []
    requires s.tasks[t].pc != HandOff && s.tasks[t].pc != Broadcast
    requires UnlockNext(s, t, false) == Some(s')
    ensures Lowers(s, s')
  {
    OneTaskLowers(s, t, s');
  }

  lemma BroadcastLowers(s: State, t: TaskId, s': State)
    requires Sized(s) && t < |s.tasks| && s.tasks[t].pc == Broadcast && s.readers.local[t] == []
    requires |s.readers.main| <= |s.tasks|
    requires UnlockNext(s, t, false) == Some(s')
    ensures Lowers(s, s')
  {
    SumUpdate(s.tasks, t, s'.tasks[t], TaskWork(|s.tasks|));
    SumUpdate(s.readers.local, t, s'.readers.local[t], Length);
  }

  lemma SamePlaceInProgram(n: nat, task: Task, task': Task)
    requires task'.todo == task.todo
    ensures TaskWork(n)(task') - TaskWork(n)(task) == PcWork(task'.pc, n) - PcWork(task.pc, n)
  {
  }

  lemma HandOffLowers(s: State, t: TaskId, s': State)
    requires Sized(s) && t < |s.tasks| && s.tasks[t].pc == HandOff && WokenOk(s, t)
    requires UnlockNext(s, t, false) == Some(s')
    ensures Lowers(s, s')
  {
    var n := |s.tasks|;
    var w := s.writers.local[t][0];
    var mid := SetPc(s.tasks, w, Writing);
    SumUpdate(s.tasks, w, mid[w], TaskWork(n));
    SumUpdate(mid, t, s'.tasks[t], TaskWork(n));
    SamePlaceInProgram(n, s.tasks[w], mid[w]);
    SamePlaceInProgram(n, s.tasks[t], s'.tasks[t]);
  }

  lemma WakeLowers(s: State, t: TaskId, s': State)
    requires Sized(s) && t < |s.tasks| && s.readers.local[t] != [] && WokenOk(s, t)
    requires UnlockNext(s, t, false) == Some(s')
    ensures Lowers(s, s')
  {
    var w := s.readers.local[t][0];
    SumUpdate(s.tasks, w, s'.tasks[w], TaskWork(|s.tasks|));
    SumUpdate(s.readers.local, t, s.readers.local[t][1..], Length);
    SamePlaceInProgram(|s.tasks|, s.tasks[w], s'.tasks[w]);
  }

  lemma ReleaseLowers(s: State, t: TaskId, s': State)
    requires QueuesOk(s) && t < |s.tasks| && Next(s, t, false) == Some(s')
    requires s.tasks[t].pc == HandOff || s.readers.local[t] != [] || s.tasks[t].pc == Broadcast
    ensures Lowers(s, s') && |s'.tasks| == |s.tasks|
  {
    WokenTaskWaits(s, t);
    if s.tasks[t].pc == HandOff {
      HandOffLowers(s, t, s');
    } else if s.readers.local[t] != [] {
      WakeLowers(s, t, s');
    } else {
      AtMostAllQueued(s.readers, ReadPhases(s.tasks));
      BroadcastLowers(s, t, s');
    }
  }

  lemma StepLowers(s: State, t: TaskId, s': State)
    requires Inv(s) && t < |s.tasks| && Next(s, t, false) == Some(s')
    ensures Lowers(s, s') && |s'.tasks| == |s.tasks|
  {
    var pc := s.tasks[t].pc;
    if pc.WriteWait? {
      WriteWaitLowers(s, t, s');
    } else if pc.ReadWait? {
      ReadWaitLowers(s, t, s');
    } else if pc.TryLock? || pc.Load? || pc.ShareCas? {
      LockLowers(s, t, s');
    } else if pc == HandOff || s.readers.local[t] != [] || pc == Broadcast {
      ReleaseLowers(s, t, s');
    } else {
      UnlockLowers(s, t, s');
    }
  }

  lemma RankBounds(s: State)
    ensures 0 <= TotalRank(s) <= 6 * |s.tasks|
  {
    SumNonNegative(s.tasks, TaskRank(s.state));
    SumAtMost(s.tasks, 6, TaskRank(s.state));
  }

  lemma StepLowersMeasure(s: State, t: TaskId, s': State)
    requires Inv(s) && t < |s.tasks| && Next(s, t, false) == Some(s')
    ensures Measure(s') < Measure(s)
  {
    StepLowers(s, t, s');
    LowersMeasure(s, s');
  }

  lemma LowersMeasure(s: State, s': State)
    requires Lowers(s, s') && |s'.tasks| == |s.tasks|
    ensures Measure(s') < Measure(s)
  {
    RankBounds(s);
    RankBounds(s');
    LexicographicLowers(TotalWork(s), TotalRank(s), TotalWork(s'), TotalRank(s'), |s.tasks|);
  }

  lemma MeasureNonNegative(s: State)
    ensures 0 <= Measure(s)
  {
    SumNonNegative(s.tasks, TaskWork(|s.tasks|));
    SumNonNegative(s.readers.local, Length);
    RankBounds(s);
  }

  /** Every interleaving ends: no run is longer than a bound read off the starting state. */
  lemma RunsAreFinite(run: seq<State>)
    requires IsRun(Init, StrongSteps, run)
    ensures |run| - 1 <= Measure(run[0])
  {
    InitHasInv(run[0]);
    StepsPreserveInv();
    forall s, s' | Inv(s) && StrongSteps(s, s') ensures Measure(s') < Measure(s) {
      var t: TaskId :| t < |s.tasks| && Next(s, t, false) == Some(s');
      StepLowersMeasure(s, t, s');
    }
    RunIsBounded(Init, StrongSteps, Inv, Measure, run);
    MeasureNonNegative(run[|run| - 1]);
  }
}
