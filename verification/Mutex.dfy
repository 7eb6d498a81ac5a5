/** The mutex: any number of tasks, each locking and unlocking a given number of times.  It is
    the binary semaphore with the flag negated, so its runs are runs of the semaphore. */
module Mutex {
  import opened TaskSums
  import opened Runs
  import opened WaitProtocol
  import Calls = Semaphore
  import opened BinarySemaphore
  import CountingRuns = SemaphoreTheorems

  datatype MutexPc =
    | Idle                   // outside lock and unlock, not owning the mutex
    | Trying                 // at the head of lock's loop, about to try_lock
    | Waiting(phase: Phase)  // inside wait_if
    | Holding                // lock returned, unlock not yet called
    | Resuming               // stored false, resume_one still owed
    | WakingUp               // has popped a waiter, or found none

  /** `rounds` counts the lock and unlock pairs not yet begun. */
  datatype Locker = Locker(rounds: nat, pc: MutexPc)

  datatype MutexState = MutexState(locked: bool, q: Waiters, tasks: seq<Locker>)

  function SetLocker(tasks: seq<Locker>, t: TaskId, pc: MutexPc): seq<Locker> {
    if t < |tasks| then tasks[t := tasks[t].(pc := pc)] else tasks
  }

  function MutexNext(s: MutexState, t: TaskId): Option<MutexState>
    requires t < |s.tasks| == |s.q.local|
  {
    match s.tasks[t].pc
    case Idle =>
      if s.tasks[t].rounds == 0 then None
      else Some(s.(tasks := s.tasks[t := Locker(s.tasks[t].rounds - 1, Trying)]))
    case Trying =>
      if s.locked then Some(s.(tasks := SetLocker(s.tasks, t, Waiting(FastPath))))
      else Some(s.(locked := true, tasks := SetLocker(s.tasks, t, Holding)))
    case Waiting(phase) =>
      (match WaitIf(s.q, t, phase, s.locked)
       case Blocked => None
       case Continue(q, p) => Some(s.(q := q, tasks := SetLocker(s.tasks, t, Waiting(p))))
       case Return(q) => Some(s.(q := q, tasks := SetLocker(s.tasks, t, Trying))))
    case Holding => Some(s.(locked := false, tasks := SetLocker(s.tasks, t, Resuming)))
    case Resuming =>
      (match Take(s.q, t, 1)
       case None => None
       case Some(q) => Some(s.(q := q, tasks := SetLocker(s.tasks, t, WakingUp))))
    case WakingUp =>
      if s.q.local[t] == [] then Some(s.(tasks := SetLocker(s.tasks, t, Idle)))
      else Some(s.(q := DropFront(s.q, t), tasks := SetLocker(s.tasks, s.q.local[t][0], Trying)))
  }

  // The mutex as a binary semaphore

  function Rounds(n: nat): seq<Calls.Job> {
    if n == 0 then [] else [Calls.Acquire, Calls.Release(1)] + Rounds(n - 1)
  }

  function AsTask(task: Locker): Calls.Task {
    var rest := Rounds(task.rounds);
    match task.pc
    case Idle => Calls.Task(rest, Calls.Ready)
    case Trying => Calls.Task([Calls.Release(1)] + rest, Calls.Enter(true))
    case Waiting(phase) => Calls.Task([Calls.Release(1)] + rest, Calls.Wait(phase))
    case Holding => Calls.Task([Calls.Release(1)] + rest, Calls.Ready)
    case Resuming => Calls.Task(rest, Calls.Resume(1))
    case WakingUp => Calls.Task(rest, Calls.Waking)
  }

  function AsTasks(tasks: seq<Locker>): seq<Calls.Task> {
    seq(|tasks|, i requires 0 <= i < |tasks| => AsTask(tasks[i]))
  }

  function AsFlag(s: MutexState): Flag {
    Flag(!s.locked, s.q, AsTasks(s.tasks))
  }

  lemma AsTasksSet(tasks: seq<Locker>, t: TaskId, task: Locker)
    requires t < |tasks|
    ensures AsTasks(tasks[t := task]) == AsTasks(tasks)[t := AsTask(task)]
  {
  }

  /** Mutex and binary semaphore move in lockstep.  A woken task is one that waits. */
  lemma Lockstep(s: MutexState, t: TaskId)
    requires t < |s.tasks| == |s.q.local|
    requires s.q.local[t] != [] ==>
               var w := s.q.local[t][0]; w < |s.tasks| && s.tasks[w].pc == Waiting(Parked)
    ensures FlagNext(AsFlag(s), t) ==
            match MutexNext(s, t) case None => None case Some(s') => Some(AsFlag(s'))
  {
    assert AsFlag(s).tasks[t] == AsTask(s.tasks[t]);
    if MutexNext(s, t).Some? {
      var s' := MutexNext(s, t).value;
      var u := if s.tasks[t].pc == WakingUp && s.q.local[t] != [] then s.q.local[t][0] else t;
      AsTasksSet(s.tasks, u, s'.tasks[u]);
      if s.tasks[t].pc == Holding {
        assert ([Calls.Release(1)] + Rounds(s.tasks[t].rounds))[1..] == Rounds(s.tasks[t].rounds);
      }
      if s.tasks[t].pc == Idle {
        assert Rounds(s.tasks[t].rounds)[1..] == [Calls.Release(1)] + Rounds(s.tasks[t].rounds - 1);
      }
    }
  }

  // Ownership

  function Owns(task: Locker): int {
    if task.pc == Holding then 1 else 0
  }

  /** `m_locked` counts the owners. */
  ghost predicate MutexInv(s: MutexState) {
    && FlagInv(AsFlag(s))
    && Sum(s.tasks, Owns) == (if s.locked then 1 else 0)
  }

  ghost predicate MutexInit(s: MutexState) {
    !s.locked && s.q == NoWaiters(|s.tasks|) && forall t :: 0 <= t < |s.tasks| ==> s.tasks[t].pc == Idle
  }

  lemma MutexInitHasInv(s: MutexState)
    requires MutexInit(s)
    ensures MutexInv(s) && FlagInit(AsFlag(s))
  {
    FlagInitHasInv(AsFlag(s));
    SumZero(s.tasks, Owns);
  }

  /** The front of a local list waits, parked. */
  lemma WokenWaits(s: MutexState, t: TaskId)
    requires MutexInv(s) && t < |s.tasks| && s.q.local[t] != []
    ensures s.q.local[t][0] < |s.tasks| && s.tasks[s.q.local[t][0]].pc == Waiting(Parked)
  {
    var counter := AsCounter(AsFlag(s));
    WakeKeepsInv(counter.q, Calls.PhasesOf(counter.tasks), t);
    var w := s.q.local[t][0];
    assert counter.tasks[w] == UnitTask(AsTask(s.tasks[w]));
  }

  /** Only an owner unlocks, so the flag is down whenever the mutex raises it. */
  lemma OwnerMeansLocked(s: MutexState, t: TaskId)
    requires MutexInv(s) && t < |s.tasks| && s.tasks[t].pc == Holding
    ensures s.locked
  {
    SumAtLeast(s.tasks, t, Owns);
  }

  lemma NeverOverfills(s: MutexState, t: TaskId)
    requires MutexInv(s) && t < |s.tasks|
    ensures !Overfills(AsFlag(s), t)
  {
    assert AsFlag(s).tasks[t] == AsTask(s.tasks[t]);
    if s.tasks[t].pc == Holding {
      OwnerMeansLocked(s, t);
    }
  }

  lemma MutexStepKeepsInv(s: MutexState, t: TaskId, s': MutexState)
    requires MutexInv(s) && t < |s.tasks| && MutexNext(s, t) == Some(s')
    ensures MutexInv(s') && FlagSteps(AsFlag(s), AsFlag(s'))
  {
    if s.q.local[t] != [] {
      WokenWaits(s, t);
    }
    Lockstep(s, t);
    NeverOverfills(s, t);
    StepKeepsFlagInv(AsFlag(s), t, AsFlag(s'));
    assert FlagSteps(AsFlag(s), AsFlag(s'));
    OwnersCounted(s, t, s');
  }

  lemma OwnersCounted(s: MutexState, t: TaskId, s': MutexState)
    requires MutexInv(s) && t < |s.tasks| && MutexNext(s, t) == Some(s')
    ensures Sum(s'.tasks, Owns) == (if s'.locked then 1 else 0)
  {
    var u := t;
    if s.q.local[t] != [] {
      WokenWaits(s, t);
      if s.tasks[t].pc == WakingUp {
        u := s.q.local[t][0];
      }
    }
    if s.tasks[t].pc == Holding {
      OwnerMeansLocked(s, t);
    }
    OwnerEffect(s, t, s', u);
    SumUpdate(s.tasks, u, s'.tasks[u], Owns);
  }

  /** The flag and the owner change together. */
  lemma OwnerEffect(s: MutexState, t: TaskId, s': MutexState, u: TaskId)
    requires t < |s.tasks| == |s.q.local| && MutexNext(s, t) == Some(s') && u < |s.tasks|
    requires s.tasks[t].pc == Holding ==> s.locked
    requires s.tasks[t].pc == WakingUp && s.q.local[t] != [] ==> u == s.q.local[t][0] && !s.tasks[u].pc.Holding?
    requires !(s.tasks[t].pc == WakingUp && s.q.local[t] != []) ==> u == t
    ensures |s'.tasks| == |s.tasks| && s'.tasks == s.tasks[u := s'.tasks[u]]
    ensures Owns(s'.tasks[u]) - Owns(s.tasks[u]) == (if s'.locked then 1 else 0) - (if s.locked then 1 else 0)
  {
  }

  ghost predicate MutexSteps(s: MutexState, s': MutexState) {
    && |s.tasks| == |s.q.local|
    && exists t: TaskId :: t < |s.tasks| && MutexNext(s, t) == Some(s')
  }

  lemma MutexRunHasInv(run: seq<MutexState>)
    requires IsRun(MutexInit, MutexSteps, run)
    ensures forall i :: 0 <= i < |run| ==> MutexInv(run[i])
  {
    MutexInitHasInv(run[0]);
    forall s, s' | MutexInv(s) && MutexSteps(s, s') ensures MutexInv(s') {
      var t: TaskId :| t < |s.tasks| && MutexNext(s, t) == Some(s');
      MutexStepKeepsInv(s, t, s');
    }
    InvariantHolds(MutexInit, MutexSteps, MutexInv, run);
  }

  /** Mutual exclusion in every state of every run, and the assertion in `unlock` holds. */
  lemma MutualExclusion(run: seq<MutexState>, i: nat, t: TaskId, u: TaskId)
    requires IsRun(MutexInit, MutexSteps, run) && i < |run|
    requires t < |run[i].tasks| && u < |run[i].tasks|
    requires run[i].tasks[t].pc == Holding && run[i].tasks[u].pc == Holding
    ensures t == u && run[i].locked
  {
    MutexRunHasInv(run);
    OwnerMeansLocked(run[i], t);
    if t < u {
      SumAtLeastTwo(run[i].tasks, t, u, Owns);
    } else if u < t {
      SumAtLeastTwo(run[i].tasks, u, t, Owns);
    }
  }

  lemma {:induction false} RunAsFlagRun(run: seq<MutexState>) returns (flags: seq<Flag>)
    requires IsRun(MutexInit, MutexSteps, run)
    ensures IsRun(FlagInit, FlagSteps, flags) && |flags| == |run|
    ensures flags[0] == AsFlag(run[0]) && flags[|run| - 1] == AsFlag(run[|run| - 1])
  {
    MutexRunHasInv(run);
    MutexInitHasInv(run[0]);
    flags := seq(|run|, i requires 0 <= i < |run| => AsFlag(run[i]));
    forall i | 0 <= i < |run| - 1 ensures FlagSteps(flags[i], flags[i + 1]) {
      assert MutexSteps(run[i], run[i + 1]);
      var t: TaskId :| t < |run[i].tasks| && MutexNext(run[i], t) == Some(run[i + 1]);
      MutexStepKeepsInv(run[i], t, run[i + 1]);
    }
  }

  ghost predicate MutexStuck(s: MutexState) {
    && |s.tasks| == |s.q.local|
    && forall t: TaskId :: t < |s.tasks| ==> MutexNext(s, t) == None
  }

  lemma StuckTogether(s: MutexState)
    requires MutexInv(s) && MutexStuck(s)
    ensures FlagStuck(AsFlag(s))
  {
    forall t: TaskId | t < |s.tasks| ensures FlagNext(AsFlag(s), t) == None {
      if s.q.local[t] != [] {
        WokenWaits(s, t);
      }
      Lockstep(s, t);
    }
  }

  lemma OwnerCanStep(s: MutexState)
    requires MutexInv(s) && s.locked
    ensures !MutexStuck(s)
  {
    var h := SumWitness(s.tasks, Owns);
    assert MutexNext(s, h) == Some(s.(locked := false, tasks := SetLocker(s.tasks, h, Resuming)));
  }

  /** Whoever locks and unlocks, in whatever interleaving: the run ends, and it ends with all
      rounds done, the mutex free and nobody queued. */
  lemma MutexCompletes(run: seq<MutexState>)
    requires IsRun(MutexInit, MutexSteps, run)
    ensures |run| - 1 <= CountingRuns.Measure(AsCounter(AsFlag(run[0])))
    ensures var last := run[|run| - 1];
            MutexStuck(last) ==>
              && !last.locked && last.q.main == []
              && forall t :: 0 <= t < |last.tasks| ==> last.tasks[t] == Locker(0, Idle)
  {
    var flags := RunAsFlagRun(run);
    BinaryRunsEnd(flags);
    MutexRunHasInv(run);
    var last := run[|run| - 1];
    if MutexStuck(last) {
      StuckTogether(last);
      if last.locked {
        OwnerCanStep(last);
      }
      FreeAndStuckIsDone(last);
    }
  }

  lemma FreeAndStuckIsDone(s: MutexState)
    requires !s.locked && s.q.main == []
    requires forall t :: 0 <= t < |s.tasks| ==>
               var task := AsFlag(s).tasks[t];
               CountingRuns.Finished(task) || (task.pc == Calls.Wait(Parked) && t in s.q.main)
    ensures forall t :: 0 <= t < |s.tasks| ==> s.tasks[t] == Locker(0, Idle)
  {
    forall t | 0 <= t < |s.tasks| ensures s.tasks[t] == Locker(0, Idle) {
      assert AsFlag(s).tasks[t] == AsTask(s.tasks[t]);
    }
  }
}
