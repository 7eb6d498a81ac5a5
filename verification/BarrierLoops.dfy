/** The barrier as it is mostly used: a barrier of n for n tasks, each of which arrives and waits
    round after round.  Where such programs are safe whatever the interleaving. */
module BarrierLoops {
  import opened TaskSums
  import opened Runs
  import opened WaitProtocol
  import opened Barrier

  /** r rounds of arrive and wait. */
  function Rounds(r: nat): seq<Job> {
    if r == 0 then [] else [Arrive(1), Wait] + Rounds(r - 1)
  }

  /** Task t is to do rounds[t] rounds, on a barrier that expects every task. */
  ghost predicate Loops(s: State, rounds: seq<nat>) {
    && Init(s) && s.expected == |s.tasks| == |rounds|
    && forall t :: 0 <= t < |rounds| ==> s.tasks[t].todo == Rounds(rounds[t])
  }

  predicate IsLoop(todo: seq<Job>) {
    todo == [] || (|todo| >= 2 && todo[0] == Arrive(1) && todo[1] == Wait && IsLoop(todo[2..]))
  }

  /** In the middle of a round. */
  predicate MidRound(todo: seq<Job>) {
    todo != [] && todo[0] == Wait && IsLoop(todo[1..])
  }

  lemma LoopHead(todo: seq<Job>)
    requires IsLoop(todo) && todo != []
    ensures todo[0] == Arrive(1) && MidRound(todo[1..])
  {
    assert todo[1..][1..] == todo[2..];
  }

  lemma {:induction false} RoundsAreLoop(r: nat)
    ensures IsLoop(Rounds(r))
  {
    if r > 0 {
      RoundsAreLoop(r - 1);
      assert Rounds(r)[2..] == Rounds(r - 1);
    }
  }

  lemma AloneHasNoList(s: State, t: TaskId)
    requires QueueOk(s) && t < |s.tasks| && !s.tasks[t].pc.Last?
    ensures s.q.local[t] == []
  {
  }

  // One task alone

  /** The only task is always the last to arrive. */
  predicate SoloTask(s: State, task: Task) {
    match task.pc
    case Ready =>
      && s.expected == 1
      && (if task.token.None? then IsLoop(task.todo) else task.token.value + 1 == s.phase && MidRound(task.todo))
    case Dropped => false
    case Loaded(n, _) => n == 1 && s.expected == 1 && task.token == None && MidRound(task.todo)
    case Last(stage, k) =>
      task.token == None && MidRound(task.todo) && (Announced(stage) ==> s.expected == 1 && s.phase == k + 1)
    case Testing(k) => s.expected == 1 && k + 1 == s.phase && task.token == None && IsLoop(task.todo)
    case Waiting(k, _) => s.expected == 1 && k + 1 == s.phase && task.token == None && IsLoop(task.todo)
  }

  predicate Solo(s: State) {
    |s.tasks| == 1 && s.initial == 1 && SoloTask(s, s.tasks[0])
  }

  lemma SoloList(s: State)
    requires QueueOk(s) && |s.tasks| == 1
    ensures s.q.local[0] == []
  {
    WokenTaskWaits(s, 0);
  }

  lemma SoloCareful(s: State)
    requires Solo(s)
    ensures ClientAllows(s, 0) && Careful(s, 0)
  {
    if BeginsArrival(s.tasks[0]) {
      SumZero(s.tasks, Pending);
      SumZero(s.tasks, Opening);
    }
  }

  lemma SoloMoves(s: State, s': State)
    requires Solo(s) && Sized(s) && s.q.local[0] == [] && Next(s, 0) == Some(s') && HistoryOk(s)
    requires s.tasks[0].pc.Last? ==> LastOk(s, s.tasks[0].pc.stage, s.tasks[0].pc.phase)
    ensures Solo(s')
  {
    var task := s.tasks[0];
    if task.pc == Ready && task.token == None && task.todo != [] {
      LoopHead(task.todo);
    }
  }

  lemma SoloStays(s: State, s': State)
    requires QueueOk(s) && CountsOk(s) && Solo(s) && Next(s, 0) == Some(s')
    ensures Solo(s')
  {
    SoloList(s);
    SoloMoves(s, s');
  }

  ghost predicate SoloInv(s: State) {
    Inv(s) && Solo(s)
  }

  lemma SoloStep(s: State, s': State)
    requires SoloInv(s) && Next(s, 0) == Some(s')
    ensures CarefulSteps(s, s') && SoloInv(s')
  {
    SoloCareful(s);
    SoloStays(s, s');
    NextKeepsInv(s, 0, s');
  }

  // Somebody never arrives

  /** Has arrived, and not yet come through. */
  function Arrived(task: Task): int {
    if task.token.Some? || InWait(task.pc).Some? then 1 else 0
  }

  /** Before its arrival, in it, or waiting for phase 0 for ever. */
  predicate ZeroTask(task: Task) {
    match task.pc
    case Ready => if task.token.None? then IsLoop(task.todo) else task.token == Some(0) && MidRound(task.todo)
    case Loaded(n, k) => n == 1 && k == 0 && task.token == None && MidRound(task.todo)
    case Testing(k) => k == 0 && task.token == None
    case Waiting(k, at) => k == 0 && at != SelfResume && task.token == None
    case _ => false
  }

  predicate Absent(task: Task) {
    task.pc == Ready && task.token == None && task.todo == []
  }

  predicate NeverCompletes(s: State, z: nat) {
    && z < |s.tasks| && Absent(s.tasks[z])
    && s.phase == 0 && s.expected == |s.tasks| - Sum(s.tasks, Arrived)
    && forall t :: 0 <= t < |s.tasks| ==> ZeroTask(s.tasks[t])
  }

  function Present(task: Task): int {
    Pending(task) + Arrived(task)
  }

  /** With somebody absent the arrivals do not use up the count. */
  lemma {:induction false} SumBelow(tasks: seq<Task>, z: nat)
    requires z < |tasks| && Present(tasks[z]) == 0
    requires forall task <- tasks :: Present(task) <= 1
    ensures Sum(tasks, Present) <= |tasks| - 1
  {
    var n := |tasks| - 1;
    if z == n {
      SumAtMost(tasks[..n], 1, Present);
    } else {
      SumBelow(tasks[..n], z);
    }
  }

  lemma AbsentLeavesRoom(s: State, z: nat)
    requires NeverCompletes(s, z)
    ensures Sum(s.tasks, Pending) < s.expected && Sum(s.tasks, Opening) == 0
    ensures forall t :: 0 <= t < |s.tasks| ==> !s.tasks[t].pc.Last?
  {
    SumSplit(s.tasks, Present, Pending, s.tasks, Arrived);
    SumBelow(s.tasks, z);
    SumZero(s.tasks, Opening);
  }

  lemma ZeroMoves(s: State, t: TaskId, s': State, z: nat)
    requires NeverCompletes(s, z) && Sized(s) && t < |s.tasks| && s.q.local[t] == [] && Next(s, t) == Some(s')
    requires s.expected != 1 || !s.tasks[t].pc.Loaded?
    ensures |s'.tasks| == |s.tasks| && s'.tasks == s.tasks[t := s'.tasks[t]] && s'.phase == 0
    ensures t != z && ZeroTask(s'.tasks[t])
    ensures s'.expected == s.expected - Arrived(s'.tasks[t]) + Arrived(s.tasks[t])
  {
    var task := s.tasks[t];
    assert ZeroTask(task);
    if task.pc == Ready && task.token == None && task.todo != [] {
      LoopHead(task.todo);
    }
  }

  lemma ZeroStays(s: State, t: TaskId, s': State, z: nat)
    requires NeverCompletes(s, z) && Sized(s) && t < |s.tasks| && s.q.local[t] == [] && Next(s, t) == Some(s')
    ensures NeverCompletes(s', z)
  {
    AbsentLeavesRoom(s, z);
    assert ZeroTask(s.tasks[t]);
    SumAtLeast(s.tasks, t, Pending);
    ZeroMoves(s, t, s', z);
    SumUpdate(s.tasks, t, s'.tasks[t], Arrived);
  }

  lemma ZeroAllows(s: State, t: TaskId, z: nat)
    requires NeverCompletes(s, z) && t < |s.tasks|
    ensures ClientAllows(s, t) && Careful(s, t) && !s.tasks[t].pc.Last?
  {
    AbsentLeavesRoom(s, z);
    assert ZeroTask(s.tasks[t]);
    if BeginsArrival(s.tasks[t]) {
      LoopHead(s.tasks[t].todo);
    }
    ZeroCareful(s, t);
  }

  lemma ZeroStep(s: State, s': State, z: nat)
    requires Inv(s) && NeverCompletes(s, z) && AnySteps(s, s')
    ensures CarefulSteps(s, s') && Inv(s') && NeverCompletes(s', z)
  {
    var t: TaskId :| t < |s.tasks| && Next(s, t) == Some(s');
    ZeroAllows(s, t, z);
    AloneHasNoList(s, t);
    ZeroStays(s, t, s', z);
    NextKeepsInv(s, t, s');
  }

  lemma ZeroCareful(s: State, t: TaskId)
    requires t < |s.tasks| && s.phase == 0 && Sum(s.tasks, Pending) < s.expected && Sum(s.tasks, Opening) == 0
    requires forall u :: 0 <= u < |s.tasks| ==> !s.tasks[u].pc.Last?
    requires BeginsArrival(s.tasks[t]) ==> s.tasks[t].todo[0] == Arrive(1)
    ensures ClientAllows(s, t) && Careful(s, t)
  {
  }

  // Arrivals for one phase only

  function Weight(job: Job): int {
    if job.Wait? then 0 else Update(job)
  }

  /** Updates that the task has still to make. */
  function Remaining(task: Task): int {
    Sum(task.todo, Weight)
  }

  function Coming(task: Task): int {
    Remaining(task) + Pending(task)
  }

  predicate Positive(task: Task) {
    forall j :: 0 <= j < |task.todo| && !task.todo[j].Wait? ==> 0 < Update(task.todo[j])
  }

  /** In phase 0 the count has room for all that is still to come; from then on nothing comes. */
  predicate PhaseTotals(phase: nat, expected: int, opening: int, coming: int) {
    && phase <= 1
    && (opening > 0 ==> phase == 0)
    && (if phase == 0 && opening == 0 then coming <= expected else coming == 0)
  }

  predicate OnePhase(s: State) {
    && (forall t :: 0 <= t < |s.tasks| ==> Positive(s.tasks[t]))
    && PhaseTotals(s.phase, s.expected, Sum(s.tasks, Opening), Sum(s.tasks, Coming))
  }

  lemma ComingNonNegative(tasks: seq<Task>)
    ensures forall task <- tasks :: 0 <= Remaining(task) <= Coming(task)
    ensures 0 <= Sum(tasks, Coming)
  {
    forall task <- tasks ensures 0 <= Remaining(task) {
      SumNonNegative(task.todo, Weight);
    }
    SumNonNegative(tasks, Coming);
  }

  lemma AnnouncedMeansLater(s: State)
    requires CountsOk(s) && AnnouncedNow(s)
    ensures 0 < s.phase
  {
    var a :| 0 <= a < |s.tasks| && IsAnnouncing(s.tasks[a]);
    assert LastOk(s, s.tasks[a].pc.stage, s.tasks[a].pc.phase);
  }

  lemma OnePhaseCareful(s: State, t: TaskId)
    requires OnePhase(s) && CountsOk(s) && t < |s.tasks|
    ensures ClientAllows(s, t) && Careful(s, t)
  {
    if BeginsArrival(s.tasks[t]) {
      assert Positive(s.tasks[t]);
      ComingNonNegative(s.tasks);
      SumFirst(s.tasks[t].todo, Weight);
      SumNonNegative(s.tasks[t].todo[1..], Weight);
      SumAtLeast(s.tasks, t, Coming);
      SumAtLeast(s.tasks, t, Remaining);
      SumSplit(s.tasks, Coming, Remaining, s.tasks, Pending);
      SumNonNegative(s.tasks, Opening);
      if AnnouncedNow(s) {
        AnnouncedMeansLater(s);
      }
    }
  }

  lemma CallComing(s: State, t: TaskId, s': State)
    requires t < |s.tasks| && s.tasks[t].pc == Ready && Call(s, t) == Some(s') && Positive(s.tasks[t])
    ensures |s'.tasks| == |s.tasks| && Positive(s'.tasks[t]) && s'.expected == s.expected
    ensures Coming(s'.tasks[t]) == Coming(s.tasks[t]) && Opening(s'.tasks[t]) == 0
  {
    SumFirst(s.tasks[t].todo, Weight);
  }

  lemma TodoStays(s: State, t: TaskId, s': State)
    requires Sized(s) && t < |s.tasks| && s.q.local[t] == [] && Next(s, t) == Some(s') && s.tasks[t].pc != Ready
    requires |s'.tasks| == |s.tasks|
    ensures s'.tasks[t].todo == s.tasks[t].todo
  {
  }

  /** What a task on its own account changes. */
  lemma ComingActor(s: State, t: TaskId, s': State)
    requires Sized(s) && t < |s.tasks| && s.q.local[t] == [] && Next(s, t) == Some(s') && Positive(s.tasks[t])
    requires |s'.tasks| == |s.tasks|
    ensures Positive(s'.tasks[t])
    ensures var task, task' := s.tasks[t], s'.tasks[t];
            && (task.pc.Loaded? ==>
                  && Pending(task) == task.pc.update && Coming(task') == Coming(task) - task.pc.update
                  && s'.expected == s.expected - task.pc.update
                  && Opening(task') == if s.expected == task.pc.update then 1 else 0)
            && (!task.pc.Loaded? ==> Coming(task') == Coming(task))
            && (Opening(task) == 1 ==> Opening(task') == if IsStoring(task) then 0 else 1)
            && (!task.pc.Loaded? && Opening(task) == 0 ==> Opening(task') == 0 && s'.expected == s.expected)
  {
    if s.tasks[t].pc == Ready {
      CallComing(s, t, s');
    } else {
      TodoStays(s, t, s');
      PendingActor(s, t, s');
    }
  }

  lemma PendingActor(s: State, t: TaskId, s': State)
    requires Sized(s) && t < |s.tasks| && s.q.local[t] == [] && Next(s, t) == Some(s') && s.tasks[t].pc != Ready
    requires |s'.tasks| == |s.tasks|
    ensures var task, task' := s.tasks[t], s'.tasks[t];
            && (task.pc.Loaded? ==>
                  && Pending(task) == task.pc.update && Pending(task') == 0
                  && s'.expected == s.expected - task.pc.update
                  && Opening(task') == if s.expected == task.pc.update then 1 else 0)
            && (!task.pc.Loaded? ==> Pending(task') == Pending(task))
            && (Opening(task) == 1 ==> Opening(task') == if IsStoring(task) then 0 else 1)
            && (!task.pc.Loaded? && Opening(task) == 0 ==> Opening(task') == 0 && s'.expected == s.expected)
  {
  }

  lemma ActorTotals(s: State, t: TaskId, s': State, opening: int, coming: int)
    requires Sized(s) && t < |s.tasks| && s.q.local[t] == [] && Next(s, t) == Some(s') && Positive(s.tasks[t])
    requires |s'.tasks| == |s.tasks| && PhaseTotals(s.phase, s.expected, opening, coming)
    requires s.tasks[t].pc.Loaded? ==> 0 < s.tasks[t].pc.update
    requires Coming(s.tasks[t]) <= coming && Opening(s.tasks[t]) <= opening <= 1 && 0 <= Remaining(s.tasks[t])
    requires s'.phase == if IsStoring(s.tasks[t]) then s.phase + 1 else s.phase
    ensures PhaseTotals(s'.phase, s'.expected, opening - Opening(s.tasks[t]) + Opening(s'.tasks[t]),
                        coming - Coming(s.tasks[t]) + Coming(s'.tasks[t]))
  {
    ComingActor(s, t, s');
  }

  lemma WokenTotals(s: State, t: TaskId, s': State)
    requires Sized(s) && t < |s.tasks| && WokenOk(s, t) && s.q.local[t] != [] && Next(s, t) == Some(s')
    ensures |s'.tasks| == |s.tasks| && s'.phase == s.phase && s'.expected == s.expected
    ensures Sum(s'.tasks, Coming) == Sum(s.tasks, Coming) && Sum(s'.tasks, Opening) == Sum(s.tasks, Opening)
  {
    StepShape(s, t, s');
    var w := s.q.local[t][0];
    SumUpdate(s.tasks, w, s'.tasks[w], Coming);
    SumUpdate(s.tasks, w, s'.tasks[w], Opening);
  }

  lemma OnePhaseActor(s: State, t: TaskId, s': State)
    requires OnePhase(s) && Sized(s) && t < |s.tasks| && s.q.local[t] == [] && Next(s, t) == Some(s')
    requires |s'.tasks| == |s.tasks| && s'.tasks == s.tasks[t := s'.tasks[t]]
    requires Sum(s.tasks, Opening) <= 1 && (s.tasks[t].pc.Loaded? ==> 0 < s.tasks[t].pc.update)
    requires s'.phase == if IsStoring(s.tasks[t]) then s.phase + 1 else s.phase
    ensures OnePhase(s')
  {
    assert Positive(s.tasks[t]);
    ComingNonNegative(s.tasks);
    SumUpdate(s.tasks, t, s'.tasks[t], Coming);
    SumUpdate(s.tasks, t, s'.tasks[t], Opening);
    SumAtLeast(s.tasks, t, Coming);
    SumAtLeast(s.tasks, t, Opening);
    ComingActor(s, t, s');
    ActorTotals(s, t, s', Sum(s.tasks, Opening), Sum(s.tasks, Coming));
  }

  lemma OnePhaseStep(s: State, t: TaskId, s': State)
    requires OnePhase(s) && QueueOk(s) && CountsOk(s) && t < |s.tasks| && TaskOk(s, s.tasks[t])
    requires Next(s, t) == Some(s')
    ensures OnePhase(s')
  {
    WokenTaskWaits(s, t);
    StepShape(s, t, s');
    if s.q.local[t] != [] {
      assert Positive(s.tasks[s.q.local[t][0]]);
      WokenTotals(s, t, s');
    } else {
      NextPhaseMoves(s, t, s');
      OnePhaseActor(s, t, s');
    }
  }

  ghost predicate OnePhaseInv(s: State) {
    Inv(s) && OnePhase(s)
  }

  lemma OnePhaseCarefulStep(s: State, s': State)
    requires OnePhaseInv(s) && AnySteps(s, s')
    ensures CarefulSteps(s, s') && OnePhaseInv(s')
  {
    var t: TaskId :| t < |s.tasks| && Next(s, t) == Some(s');
    assert TaskOk(s, s.tasks[t]);
    OnePhaseCareful(s, t);
    OnePhaseStep(s, t, s');
    NextKeepsInv(s, t, s');
  }

  /** Any programs whose updates, all positive, do not exceed the count together, with or without
      waiting and dropping: every run is careful, so that nobody leaves early and all counts are
      right. */
  lemma OnePhaseRunsAreCareful(run: seq<State>)
    requires IsRun(Init, AnySteps, run)
    requires forall t :: 0 <= t < |run[0].tasks| ==> Positive(run[0].tasks[t])
    requires Sum(run[0].tasks, Remaining) <= run[0].expected
    ensures IsRun(Init, CarefulSteps, run) && NobodyEarly(run)
  {
    InitHasInv(run[0]);
    SumSplit(run[0].tasks, Coming, Remaining, run[0].tasks, Pending);
    SumZero(run[0].tasks, Pending);
    SumZero(run[0].tasks, Opening);
    forall s, s' | OnePhaseInv(s) && AnySteps(s, s') ensures CarefulSteps(s, s') && OnePhaseInv(s') {
      OnePhaseCarefulStep(s, s');
    }
    RunStrengthens(Init, AnySteps, CarefulSteps, OnePhaseInv, run);
    NobodyLeavesEarly(run);
  }

  // The safe half

  predicate SafeRounds(rounds: seq<nat>) {
    || |rounds| <= 1
    || (exists t :: 0 <= t < |rounds| && rounds[t] == 0)
    || (forall t :: 0 <= t < |rounds| ==> rounds[t] <= 1)
  }

  lemma LoopStart(s: State, rounds: seq<nat>, t: nat)
    requires Loops(s, rounds) && t < |rounds|
    ensures IsLoop(s.tasks[t].todo) && (s.tasks[t].todo == [] <==> rounds[t] == 0)
    ensures rounds[t] == 1 ==> s.tasks[t].todo == [Arrive(1), Wait]
  {
    RoundsAreLoop(rounds[t]);
    if rounds[t] == 1 {
      assert Rounds(0) == [];
    }
  }

  lemma OnlyTask(s: State, s': State)
    requires |s.tasks| == 1 && AnySteps(s, s')
    ensures Sized(s) && Next(s, 0) == Some(s')
  {
  }

  lemma SoloStart(s: State, rounds: seq<nat>)
    requires Loops(s, rounds) && |rounds| == 1
    ensures SoloInv(s)
  {
    InitHasInv(s);
    LoopStart(s, rounds, 0);
  }

  lemma SoloRuns(run: seq<State>, rounds: seq<nat>)
    requires IsRun(Init, AnySteps, run) && Loops(run[0], rounds) && |rounds| == 1
    ensures IsRun(Init, CarefulSteps, run)
  {
    SoloStart(run[0], rounds);
    forall s, s' | SoloInv(s) && AnySteps(s, s') ensures CarefulSteps(s, s') && SoloInv(s') {
      OnlyTask(s, s');
      SoloStep(s, s');
    }
    RunStrengthens(Init, AnySteps, CarefulSteps, SoloInv, run);
  }

  lemma ZeroRuns(run: seq<State>, rounds: seq<nat>, z: nat)
    requires IsRun(Init, AnySteps, run) && Loops(run[0], rounds) && z < |rounds| && rounds[z] == 0
    ensures IsRun(Init, CarefulSteps, run)
  {
    var first := run[0];
    InitHasInv(first);
    forall t: nat | t < |rounds| ensures ZeroTask(first.tasks[t]) {
      LoopStart(first, rounds, t);
    }
    SumZero(first.tasks, Arrived);
    LoopStart(first, rounds, z);
    var inv := (s: State) => Inv(s) && NeverCompletes(s, z);
    forall s, s' | inv(s) && AnySteps(s, s') ensures CarefulSteps(s, s') && inv(s') {
      ZeroStep(s, s', z);
    }
    RunStrengthens(Init, AnySteps, CarefulSteps, inv, run);
  }

  lemma OneRoundWeighs(todo: seq<Job>)
    requires todo == [Arrive(1), Wait]
    ensures Sum(todo, Weight) == 1
  {
    assert todo[..1] == [Arrive(1)] && todo[..1][..0] == [];
    assert Sum(todo[..1], Weight) == Sum(todo[..1][..0], Weight) + 1;
  }

  lemma OnceRuns(run: seq<State>, rounds: seq<nat>)
    requires IsRun(Init, AnySteps, run) && Loops(run[0], rounds)
    requires forall t :: 0 <= t < |rounds| ==> rounds[t] == 1
    ensures IsRun(Init, CarefulSteps, run)
  {
    var first := run[0];
    forall t: nat | t < |rounds| ensures Positive(first.tasks[t]) && Remaining(first.tasks[t]) == 1 {
      LoopStart(first, rounds, t);
      OneRoundWeighs(first.tasks[t].todo);
    }
    SumAtMost(first.tasks, 1, Remaining);
    OnePhaseRunsAreCareful(run);
  }

  /** Safe programs run carefully by themselves, in every interleaving. */
  lemma SafeRunsAreCareful(run: seq<State>, rounds: seq<nat>)
    requires IsRun(Init, AnySteps, run) && Loops(run[0], rounds) && SafeRounds(rounds)
    ensures IsRun(Init, CarefulSteps, run) && NobodyEarly(run)
  {
    if |rounds| == 1 {
      SoloRuns(run, rounds);
    } else if z :| 0 <= z < |rounds| && rounds[z] == 0 {
      ZeroRuns(run, rounds, z);
    } else {
      OnceRuns(run, rounds);
    }
    NobodyLeavesEarly(run);
  }
}
