/** What the counting semaphore promises over whole runs. */
module SemaphoreTheorems {
  import opened TaskSums
  import opened Runs
  import opened WaitProtocol
  import opened Semaphore

  ghost predicate Steps(s: State, s': State) {
    && |s.tasks| == |s.q.local|
    && exists t: TaskId, weak: bool :: t < |s.tasks| && Next(s, t, weak) == Some(s')
  }

  /** Steps in which a compare-exchange fails only when the values differ. */
  ghost predicate StrongSteps(s: State, s': State) {
    && |s.tasks| == |s.q.local|
    && exists t: TaskId :: t < |s.tasks| && Next(s, t, false) == Some(s')
  }

  lemma StepsPreserveInv()
    ensures Preserved(Steps, Inv)
    ensures Preserved(StrongSteps, Inv)
  {
    forall s, s' | Inv(s) && Steps(s, s') ensures Inv(s') {
      var t: TaskId, weak: bool :| t < |s.tasks| && Next(s, t, weak) == Some(s');
      NextKeepsInv(s, t, weak);
    }
    forall s, s' | Inv(s) && StrongSteps(s, s') ensures Inv(s') {
      var t: TaskId :| t < |s.tasks| && Next(s, t, false) == Some(s');
      NextKeepsInv(s, t, false);
    }
  }

  // No lost wakeup, in numbers

  lemma CoverCounts(s: State)
    requires Inv(s)
    ensures Cover(s) == NotQueued(s) + OwedWakeups(s)
  {
    ParkedCount(s);
    SumSplit(s.tasks, InAcquire, Awake, PhasesOf(s.tasks), IsParked);
  }

  lemma ParkedCount(s: State)
    requires Inv(s)
    ensures Sum(PhasesOf(s.tasks), IsParked) == |s.q.main| + Sum(s.q.local, Length)
  {
  }

  /** While somebody is queued, every permit is matched by a task inside `acquire` that is not
      queued or by a wakeup a releaser still owes; one fewer is enough while a re-checked
      waiter is about to push. */
  lemma NoLostWakeup(run: seq<State>, i: nat)
    requires IsRun(Init, Steps, run) && i < |run|
    ensures run[i].q.main != [] ==> run[i].counter <= NotQueued(run[i]) + OwedWakeups(run[i])
    ensures PushPending(run[i]) ==> run[i].counter <= NotQueued(run[i]) - 1 + OwedWakeups(run[i])
    ensures 0 <= run[i].counter
  {
    InitHasInv(run[0]);
    StepsPreserveInv();
    InvariantHolds(Init, Steps, Inv, run);
    CoverCounts(run[i]);
  }

  // Stuck states

  predicate Finished(task: Task) {
    task.pc == Ready && task.todo == []
  }

  ghost predicate Stuck(s: State) {
    && |s.tasks| == |s.q.local|
    && forall t: TaskId :: t < |s.tasks| ==> Next(s, t, false) == None
  }

  lemma LockHolderSteps(s: State)
    requires Inv(s) && s.q.owner.Some?
    ensures s.q.owner.value < |s.tasks| && Next(s, s.q.owner.value, false).Some?
  {
    assert HoldsLock(PhasesOf(s.tasks)[s.q.owner.value]);
  }

  lemma StuckLockFree(s: State)
    requires Inv(s) && Stuck(s)
    ensures s.q.owner == None
  {
    if s.q.owner.Some? {
      LockHolderSteps(s);
    }
  }

  /** No task can step exactly when all are finished or parked in the queue, and then a
      parked task means that there is no permit. */
  lemma StuckExactly(s: State)
    requires Inv(s)
    ensures Stuck(s) <==>
      forall t :: 0 <= t < |s.tasks| ==> Finished(s.tasks[t]) || s.tasks[t].pc == Wait(Parked)
    ensures Stuck(s) && s.q.main != [] ==> s.counter == 0
    ensures Stuck(s) ==> |s.q.main| == Sum(PhasesOf(s.tasks), IsParked)
    ensures Stuck(s) ==> forall t: TaskId :: t in s.q.main <==> ParkedAt(PhasesOf(s.tasks), t)
  {
    if Stuck(s) {
      StuckLockFree(s);
      forall t | 0 <= t < |s.tasks|
        ensures Finished(s.tasks[t]) || s.tasks[t].pc == Wait(Parked)
      {
        assert Next(s, t, false) == None;
      }
      AllInMain(s.q, PhasesOf(s.tasks));
      SumZero(s.tasks, Awake);
      SumZero(s.tasks, Owes);
      SumZero(s.q.local, Length);
    }
  }

  // Termination

  function JobWork(job: Job): int {
    match job
    case Release(n) => if n == 0 then 1 else n + 3
    case _ => 2
  }

  /** Calls left to make, exchanges left to win and wakeups left to hand out. */
  function Work(task: Task): int {
    Sum(task.todo, JobWork) +
    match task.pc
    case Ready => 0
    case Resume(n) => n + 2
    case _ => 1
  }

  /** Actions before the next unit of work, given that the counter stays as it is. */
  function Rank(counter: int): Task -> int {
    (task: Task) =>
      match task.pc
      case Enter(_) => LoadRank(counter > 0)
      case Cas(v, _) => if counter > 0 then (if v == counter then 1 else 2) else 5
      case Wait(phase) => PhaseRank(phase, counter > 0)
      case _ => 0
  }

  function TotalWork(s: State): int {
    Sum(s.tasks, Work) + Sum(s.q.local, Length)
  }

  function TotalRank(s: State): int {
    Sum(s.tasks, Rank(s.counter))
  }

  function Measure(s: State): int {
    TotalWork(s) * (6 * |s.tasks| + 1) + TotalRank(s)
  }

  ghost predicate Lowers(s: State, s': State) {
    || TotalWork(s') < TotalWork(s)
    || (TotalWork(s') == TotalWork(s) && s'.counter == s.counter && TotalRank(s') < TotalRank(s))
  }

  /** A step of one task is measured by that task's own work and rank. */
  lemma OneTaskLowers(s: State, t: TaskId, s': State)
    requires t < |s.tasks| == |s'.tasks| && s'.tasks == s.tasks[t := s'.tasks[t]]
    requires s'.q.local == s.q.local
    requires || Work(s'.tasks[t]) < Work(s.tasks[t])
             || (Work(s'.tasks[t]) == Work(s.tasks[t]) && s'.counter == s.counter
                 && Rank(s.counter)(s'.tasks[t]) < Rank(s.counter)(s.tasks[t]))
    ensures Lowers(s, s')
  {
    SumUpdate(s.tasks, t, s'.tasks[t], Work);
    SumUpdate(s.tasks, t, s'.tasks[t], Rank(s.counter));
  }

  lemma WaitStepLowers(s: State, t: TaskId, s': State)
    requires Inv(s) && t < |s.tasks| && s.tasks[t].pc.Wait?
    requires Next(s, t, false) == Some(s')
    ensures |s'.tasks| == |s.tasks| && Lowers(s, s')
  {
    OneTaskLowers(s, t, s');
  }

  lemma TaskStepLowers(s: State, t: TaskId, s': State)
    requires Inv(s) && t < |s.tasks| && s.q.local[t] == []
    requires Next(s, t, false) == Some(s')
    ensures |s'.tasks| == |s.tasks| && Lowers(s, s')
  {
    match s.tasks[t].pc
    case Ready =>
      SumFirst(s.tasks[t].todo, JobWork);
      OneTaskLowers(s, t, s');
    case Wait(_) => WaitStepLowers(s, t, s');
    case Resume(_) =>
      SumUpdate(s.tasks, t, s'.tasks[t], Work);
      SumUpdate(s.q.local, t, s'.q.local[t], Length);
    case Enter(_) => OneTaskLowers(s, t, s');
    case Cas(_, _) => OneTaskLowers(s, t, s');
    case Waking => OneTaskLowers(s, t, s');
  }

  lemma WakeStepLowers(s: State, t: TaskId, s': State)
    requires Inv(s) && t < |s.tasks| && s.q.local[t] != []
    requires Next(s, t, false) == Some(s')
    ensures |s'.tasks| == |s.tasks| && Lowers(s, s')
  {
    var w := s.q.local[t][0];
    WakeKeepsInv(s.q, PhasesOf(s.tasks), t);
    SumUpdate(s.tasks, w, s'.tasks[w], Work);
    SumUpdate(s.q.local, t, s.q.local[t][1..], Length);
  }

  lemma StepLowersMeasure(s: State, t: TaskId, s': State)
    requires Inv(s) && t < |s.tasks| && Next(s, t, false) == Some(s')
    ensures Measure(s') < Measure(s)
  {
    if s.q.local[t] == [] {
      TaskStepLowers(s, t, s');
    } else {
      WakeStepLowers(s, t, s');
    }
    LowersMeasure(s, s');
  }

  lemma LowersMeasure(s: State, s': State)
    requires Lowers(s, s') && |s'.tasks| == |s.tasks|
    ensures Measure(s') < Measure(s)
  {
    SumNonNegative(s.tasks, Rank(s.counter));
    SumAtMost(s'.tasks, 6, Rank(s'.counter));
    LexicographicLowers(TotalWork(s), TotalRank(s), TotalWork(s'), TotalRank(s'), |s.tasks|);
  }

  lemma {:induction false} MeasureNonNegative(s: State)
    ensures 0 <= Measure(s)
  {
    forall task <- s.tasks ensures 0 <= Work(task) {
      SumNonNegative(task.todo, JobWork);
    }
    SumNonNegative(s.tasks, Work);
    SumNonNegative(s.q.local, Length);
    SumNonNegative(s.tasks, Rank(s.counter));
  }

  /** Every interleaving ends: no run is longer than a bound read off the starting state. */
  lemma RunsAreFinite(run: seq<State>)
    requires IsRun(Init, StrongSteps, run)
    ensures |run| - 1 <= Measure(run[0])
  {
    InitHasInv(run[0]);
    StepsPreserveInv();
    forall s, s' | Inv(s) && StrongSteps(s, s') ensures Measure(s') < Measure(s) {
      var t: TaskId :| t < |s.tasks| && Next(s, t, false) == Some(s');
      StepLowersMeasure(s, t, s');
    }
    RunIsBounded(Init, StrongSteps, Inv, Measure, run);
    MeasureNonNegative(run[|run| - 1]);
  }

  // Conservation of permits and the drain theorem

  function IsAcquire(job: Job): int {
    if job == Acquire then 1 else 0
  }

  function JobReturn(job: Job): int {
    if job.Release? then job.update else 0
  }

  /** Acquire calls begun or still to be made, and permits still to be released. */
  function Wanted(task: Task): int {
    Sum(task.todo, IsAcquire) + InAcquire(task)
  }

  function Unreleased(task: Task): int {
    Sum(task.todo, JobReturn)
  }

  function Net(task: Task): int {
    Unreleased(task) - Wanted(task)
  }

  function Potential(s: State): int {
    s.counter + Sum(s.tasks, Net)
  }

  /** try_acquire may or may not take a permit, so it is left out of the conservation law. */
  predicate NeverTries(task: Task) {
    && TryAcquire !in task.todo
    && (task.pc.Enter? || task.pc.Cas? ==> task.pc.blocking)
  }

  predicate NoTries(s: State) {
    forall t :: 0 <= t < |s.tasks| ==> NeverTries(s.tasks[t])
  }

  /** What a step does to the one task it changes, as far as permits are concerned. */
  lemma ActorPermits(s: State, t: TaskId, weak: bool, s': State)
    requires t < |s.tasks| == |s.q.local| && s.q.local[t] == [] && Next(s, t, weak) == Some(s')
    requires NeverTries(s.tasks[t])
    ensures |s'.tasks| == |s.tasks| && s'.tasks == s.tasks[t := s'.tasks[t]] && NeverTries(s'.tasks[t])
    ensures s'.counter + Net(s'.tasks[t]) == s.counter + Net(s.tasks[t])
  {
    if s.tasks[t].pc == Ready {
      SumFirst(s.tasks[t].todo, IsAcquire);
      SumFirst(s.tasks[t].todo, JobReturn);
    }
  }

  /** What a step does that wakes somebody. */
  lemma WokenShape(s: State, t: TaskId, weak: bool, s': State)
    requires Inv(s) && t < |s.tasks| && s.q.local[t] != [] && Next(s, t, weak) == Some(s')
    ensures var w := s.q.local[t][0];
            && w < |s.tasks| && s.tasks[w].pc == Wait(Parked) && s'.counter == s.counter
            && s'.tasks == s.tasks[w := s.tasks[w].(pc := Enter(true))]
  {
    WakeKeepsInv(s.q, PhasesOf(s.tasks), t);
  }

  lemma StepConservesPermits(s: State, t: TaskId, weak: bool, s': State)
    requires Inv(s) && NoTries(s) && t < |s.tasks| && Next(s, t, weak) == Some(s')
    ensures NoTries(s') && Potential(s') == Potential(s)
  {
    if s.q.local[t] != [] {
      var w := s.q.local[t][0];
      WokenShape(s, t, weak, s');
      SumUpdate(s.tasks, w, s'.tasks[w], Net);
    } else {
      ActorPermits(s, t, weak, s');
      SumUpdate(s.tasks, t, s'.tasks[t], Net);
    }
  }

  /** Permits are conserved along every run of programs without try_acquire: the counter, plus
      what is still to be released, less what is still wanted. */
  lemma PermitsConserved(run: seq<State>, i: nat)
    requires IsRun(Init, Steps, run) && i < |run| && NoTries(run[0])
    ensures Inv(run[i]) && NoTries(run[i])
    ensures Potential(run[i]) == Potential(run[0])
  {
    var inv := (s: State) => Inv(s) && NoTries(s);
    InitHasInv(run[0]);
    forall s, s' | inv(s) && Steps(s, s')
      ensures inv(s') && Potential(s') == Potential(s)
    {
      var t: TaskId, weak: bool :| t < |s.tasks| && Next(s, t, weak) == Some(s');
      NextKeepsInv(s, t, weak);
      StepConservesPermits(s, t, weak, s');
    }
    InvariantHolds(Init, Steps, inv, run);
    QuantityConserved(Init, Steps, inv, Potential, run);
  }

  /** And try_acquire is what has to be left out: one that succeeds takes a permit that nobody
      wanted for good. */
  lemma TryTakesPermit(s: State, t: TaskId, s': State)
    requires t < |s.tasks| == |s.q.local| && s.tasks[t].pc.Cas? && !s.tasks[t].pc.blocking
    requires s.tasks[t].pc.current == s.counter && Next(s, t, false) == Some(s')
    ensures Potential(s') == Potential(s) - 1
  {
    SumUpdate(s.tasks, t, s'.tasks[t], Net);
  }

  predicate OnlyAcquires(todo: seq<Job>) {
    forall j :: 0 <= j < |todo| ==> todo[j] == Acquire
  }

  /** The task releases nothing once it has begun to acquire. */
  predicate ReleasesFirst(task: Task) {
    && NeverTries(task)
    && (forall i :: 0 <= i < |task.todo| && task.todo[i] == Acquire ==> OnlyAcquires(task.todo[i..]))
    && (InAcquire(task) == 1 ==> OnlyAcquires(task.todo))
  }

  predicate AllReleaseFirst(s: State) {
    forall t :: 0 <= t < |s.tasks| ==> ReleasesFirst(s.tasks[t])
  }

  lemma RestReleasesFirst(todo: seq<Job>)
    requires todo != []
    requires forall i :: 0 <= i < |todo| && todo[i] == Acquire ==> OnlyAcquires(todo[i..])
    ensures forall i :: 0 <= i < |todo[1..]| && todo[1..][i] == Acquire ==> OnlyAcquires(todo[1..][i..])
    ensures todo[0] == Acquire ==> OnlyAcquires(todo[1..])
  {
    forall i | 0 <= i < |todo[1..]| && todo[1..][i] == Acquire ensures OnlyAcquires(todo[1..][i..]) {
      assert todo[1..][i..] == todo[i + 1..];
    }
    if todo[0] == Acquire {
      assert todo[0..] == todo;
    }
  }

  lemma StepKeepsReleasesFirst(s: State, t: TaskId, weak: bool, s': State)
    requires Inv(s) && AllReleaseFirst(s) && t < |s.tasks| && Next(s, t, weak) == Some(s')
    ensures AllReleaseFirst(s')
  {
    assert ReleasesFirst(s.tasks[t]);
    if s.q.local[t] != [] {
      WokenShape(s, t, weak, s');
      assert ReleasesFirst(s.tasks[s.q.local[t][0]]);
    } else {
      ActorPermits(s, t, weak, s');
      ActorReleasesFirst(s, t, weak, s');
    }
  }

  lemma ActorReleasesFirst(s: State, t: TaskId, weak: bool, s': State)
    requires t < |s.tasks| == |s.q.local| && s.q.local[t] == [] && Next(s, t, weak) == Some(s')
    requires ReleasesFirst(s.tasks[t]) && |s'.tasks| == |s.tasks| && NeverTries(s'.tasks[t])
    ensures ReleasesFirst(s'.tasks[t])
  {
    if s.tasks[t].pc == Ready && s.tasks[t].todo != [] {
      RestReleasesFirst(s.tasks[t].todo);
    }
  }

  lemma RunReleasesFirst(run: seq<State>)
    requires IsRun(Init, Steps, run) && AllReleaseFirst(run[0])
    ensures AllReleaseFirst(run[|run| - 1])
  {
    var inv := (s: State) => Inv(s) && AllReleaseFirst(s);
    InitHasInv(run[0]);
    forall s, s' | inv(s) && Steps(s, s') ensures inv(s') {
      var t: TaskId, weak: bool :| t < |s.tasks| && Next(s, t, weak) == Some(s');
      NextKeepsInv(s, t, weak);
      StepKeepsReleasesFirst(s, t, weak, s');
    }
    InvariantHolds(Init, Steps, inv, run);
  }

  lemma NetInTotal(tasks: seq<Task>)
    ensures Sum(tasks, Unreleased) == Sum(tasks, Net) + Sum(tasks, Wanted)
  {
    SumSplit(tasks, Unreleased, Net, tasks, Wanted);
  }

  lemma WantedNonNegative(tasks: seq<Task>)
    ensures forall task <- tasks :: 0 <= Wanted(task) && 0 <= Unreleased(task)
    ensures 0 <= Sum(tasks, Wanted) && 0 <= Sum(tasks, Unreleased)
  {
    forall task <- tasks ensures 0 <= Wanted(task) && 0 <= Unreleased(task) {
      SumNonNegative(task.todo, IsAcquire);
      SumNonNegative(task.todo, JobReturn);
    }
    SumNonNegative(tasks, Wanted);
    SumNonNegative(tasks, Unreleased);
  }

  /** Whoever is stuck has released all it will, and is finished or asleep in an acquire. */
  lemma StuckTask(s: State, t: TaskId)
    requires Inv(s) && Stuck(s) && t < |s.tasks| && ReleasesFirst(s.tasks[t])
    ensures Unreleased(s.tasks[t]) == 0
    ensures if t in s.q.main then s.tasks[t].pc == Wait(Parked) && OnlyAcquires(s.tasks[t].todo)
            else Finished(s.tasks[t])
  {
    StuckExactly(s);
    assert ParkedAt(PhasesOf(s.tasks), t) <==> s.tasks[t].pc == Wait(Parked);
    SumZero(s.tasks[t].todo, JobReturn);
  }

  lemma SleeperWants(s: State)
    requires Inv(s) && s.q.main != []
    ensures 0 < Sum(s.tasks, Wanted)
  {
    var t := s.q.main[0];
    ListedIsParked(s.q, PhasesOf(s.tasks), t);
    WantedNonNegative(s.tasks);
    SumNonNegative(s.tasks[t].todo, IsAcquire);
    SumAtLeast(s.tasks, t, Wanted);
  }

  lemma StuckHasReleased(s: State)
    requires Inv(s) && Stuck(s) && AllReleaseFirst(s)
    ensures Sum(s.tasks, Unreleased) == 0
    ensures s.q.main == [] ==> Sum(s.tasks, Wanted) == 0
    ensures s.q.main != [] ==> 0 < Sum(s.tasks, Wanted) && s.counter == 0
    ensures forall t :: 0 <= t < |s.tasks| ==>
              if t in s.q.main then s.tasks[t].pc == Wait(Parked) && OnlyAcquires(s.tasks[t].todo)
              else Finished(s.tasks[t])
  {
    StuckExactly(s);
    forall t: TaskId | t < |s.tasks|
      ensures Unreleased(s.tasks[t]) == 0
      ensures if t in s.q.main then s.tasks[t].pc == Wait(Parked) && OnlyAcquires(s.tasks[t].todo)
              else Finished(s.tasks[t])
    {
      StuckTask(s, t);
    }
    SumZero(s.tasks, Unreleased);
    if s.q.main == [] {
      SumZero(s.tasks, Wanted);
    } else {
      SleeperWants(s);
    }
  }

  /** The drain theorem.  Tasks make N calls of acquire in all and release R permits in all,
      none of them releasing after acquiring, and the counter starts at c.  When nothing can
      move any more, exactly min(N, c + R) of the calls have come through, and the rest of the
      permits is left over. */
  lemma Drain(run: seq<State>)
    requires IsRun(Init, Steps, run) && AllReleaseFirst(run[0]) && Stuck(run[|run| - 1])
    ensures var first, last := run[0], run[|run| - 1];
            var n, permits := Sum(first.tasks, Wanted), first.counter + Sum(first.tasks, Unreleased);
            && 0 <= n && 0 <= permits
            && var served := n - Sum(last.tasks, Wanted);
            && served == Min(n, permits) && last.counter == permits - served
            && forall t :: 0 <= t < |last.tasks| ==>
                 if t in last.q.main then last.tasks[t].pc == Wait(Parked) && OnlyAcquires(last.tasks[t].todo)
                 else Finished(last.tasks[t])
  {
    var first, last := run[0], run[|run| - 1];
    PermitsConserved(run, |run| - 1);
    RunReleasesFirst(run);
    WantedNonNegative(first.tasks);
    NetInTotal(first.tasks);
    NetInTotal(last.tasks);
    StuckHasReleased(last);
  }

  /** A task on its last call, or past it. */
  predicate OneCallLeft(task: Task) {
    |task.todo| + (if task.pc == Ready then 0 else 1) <= 1
  }

  predicate OneCallEach(s: State) {
    forall t :: 0 <= t < |s.tasks| ==> OneCallLeft(s.tasks[t])
  }

  lemma RunKeepsOneCall(run: seq<State>)
    requires IsRun(Init, Steps, run) && OneCallEach(run[0])
    ensures OneCallEach(run[|run| - 1])
  {
    var inv := (s: State) => Inv(s) && OneCallEach(s);
    InitHasInv(run[0]);
    forall s, s' | inv(s) && Steps(s, s') ensures inv(s') {
      var t: TaskId, weak: bool :| t < |s.tasks| && Next(s, t, weak) == Some(s');
      NextKeepsInv(s, t, weak);
      StepKeepsOneCall(s, t, weak, s');
    }
    InvariantHolds(Init, Steps, inv, run);
  }

  lemma StepKeepsOneCall(s: State, t: TaskId, weak: bool, s': State)
    requires Inv(s) && OneCallEach(s) && t < |s.tasks| && Next(s, t, weak) == Some(s')
    ensures OneCallEach(s')
  {
    assert OneCallLeft(s.tasks[t]);
    if s.q.local[t] != [] {
      WokenShape(s, t, weak, s');
      assert OneCallLeft(s.tasks[s.q.local[t][0]]);
    }
  }

  /** With one call each, N acquirers among them, those that have not come through are queued. */
  lemma DrainOneCallEach(run: seq<State>)
    requires IsRun(Init, Steps, run) && AllReleaseFirst(run[0]) && OneCallEach(run[0]) && Stuck(run[|run| - 1])
    ensures var first, last := run[0], run[|run| - 1];
            var n, permits := Sum(first.tasks, Wanted), first.counter + Sum(first.tasks, Unreleased);
            0 <= n && 0 <= permits && |last.q.main| == n - Min(n, permits)
  {
    var last := run[|run| - 1];
    Drain(run);
    RunKeepsOneCall(run);
    PermitsConserved(run, |run| - 1);
    StuckExactly(last);
    forall t | 0 <= t < |last.tasks| ensures Wanted(last.tasks[t]) == IsParked(PhasesOf(last.tasks)[t]) {
      assert OneCallLeft(last.tasks[t]);
    }
    SumSplit(last.tasks, Wanted, _ => 0, PhasesOf(last.tasks), IsParked);
    SumZero(last.tasks, _ => 0);
  }

  // The storage type

  const SIGNED_MAXIMA: seq<nat> := [0x7f, 0x7fff, 0x7fff_ffff, 0x7fff_ffff_ffff_ffff]

  /** The largest value of the smallest signed type of 8, 16, 32 or 64 bits that holds n. */
  function StorageMax(n: nat): (r: nat)
    requires n <= 0x7fff_ffff_ffff_ffff
    ensures n <= r && r in SIGNED_MAXIMA
    ensures forall m <- SIGNED_MAXIMA :: n <= m ==> r <= m
  {
    if n <= 0x7f then 0x7f
    else if n <= 0x7fff then 0x7fff
    else if n <= 0x7fff_ffff then 0x7fff_ffff
    else 0x7fff_ffff_ffff_ffff
  }

  /** How far the rest of a program can raise the counter, at most, above what it takes: the
      most that any beginning of it releases more than it acquires. */
  function Rise(todo: seq<Job>): nat {
    if todo == [] then 0
    else
      var rest := Rise(todo[1..]);
      match todo[0]
      case Acquire => LessOne(rest)
      case TryAcquire => rest
      case Release(n) => n + rest
  }

  function LessOne(n: nat): nat {
    if n == 0 then 0 else n - 1
  }

  function TaskRise(task: Task): int {
    if InAcquire(task) == 1 then LessOne(Rise(task.todo)) else Rise(task.todo)
  }

  function Ceiling(s: State): int {
    s.counter + Sum(s.tasks, TaskRise)
  }

  lemma StepKeepsCeiling(s: State, t: TaskId, weak: bool, s': State)
    requires Inv(s) && t < |s.tasks| && Next(s, t, weak) == Some(s')
    ensures Ceiling(s') <= Ceiling(s)
  {
    if s.q.local[t] != [] {
      var w := s.q.local[t][0];
      WokenShape(s, t, weak, s');
      SumUpdate(s.tasks, w, s'.tasks[w], TaskRise);
    } else {
      ActorRises(s, t, weak, s');
      SumUpdate(s.tasks, t, s'.tasks[t], TaskRise);
    }
  }

  lemma ActorRises(s: State, t: TaskId, weak: bool, s': State)
    requires t < |s.tasks| == |s.q.local| && s.q.local[t] == [] && Next(s, t, weak) == Some(s')
    ensures |s'.tasks| == |s.tasks| && s'.tasks == s.tasks[t := s'.tasks[t]]
    ensures s'.counter + TaskRise(s'.tasks[t]) <= s.counter + TaskRise(s.tasks[t])
  {
  }

  /** The assertion in `release` holds at every call, and the stored counter never leaves the
      range of its type, for programs that could not exceed max() if each ran as far ahead of
      the others as suits it best.  Tasks that give back only what they took may go on for ever. */
  lemma ReleaseWithinMax(least: nat, run: seq<State>, i: nat, t: TaskId)
    requires least <= 0x7fff_ffff_ffff_ffff
    requires IsRun(Init, Steps, run) && i < |run| && t < |run[i].tasks|
    requires Ceiling(run[0]) <= StorageMax(least)
    ensures least <= StorageMax(least)
    ensures 0 <= run[i].counter <= StorageMax(least)
    ensures run[i].tasks[t].pc == Ready && run[i].tasks[t].todo != [] && run[i].tasks[t].todo[0].Release? ==>
              run[i].tasks[t].todo[0].update <= StorageMax(least) - run[i].counter
  {
    var bound := StorageMax(least);
    var inv := (s: State) => Inv(s) && Ceiling(s) <= bound;
    InitHasInv(run[0]);
    forall s, s' | inv(s) && Steps(s, s') ensures inv(s') {
      var t: TaskId, weak: bool :| t < |s.tasks| && Next(s, t, weak) == Some(s');
      NextKeepsInv(s, t, weak);
      StepKeepsCeiling(s, t, weak, s');
    }
    InvariantHolds(Init, Steps, inv, run);
    var s := run[i];
    SumNonNegative(s.tasks, TaskRise);
    SumAtLeast(s.tasks, t, TaskRise);
  }

  /** Tasks that acquire before they release one permit never raise the counter. */
  lemma {:induction false} BalancedNeverRises(todo: seq<Job>, k: nat)
    requires |todo| == 2 * k
    requires forall j :: 0 <= j < k ==> todo[2 * j] == Acquire && todo[2 * j + 1] == Release(1)
    ensures Rise(todo) == 0
  {
    if k > 0 {
      var rest := todo[2..];
      assert todo[1..][1..] == rest;
      forall j | 0 <= j < k - 1 ensures rest[2 * j] == Acquire && rest[2 * j + 1] == Release(1) {
        assert rest[2 * j] == todo[2 * (j + 1)] && rest[2 * j + 1] == todo[2 * (j + 1) + 1];
      }
      BalancedNeverRises(rest, k - 1);
      assert todo[2 * 0] == Acquire && todo[2 * 0 + 1] == Release(1);
    }
  }
}
