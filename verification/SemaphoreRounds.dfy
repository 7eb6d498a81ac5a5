/** Programs that give their permits back, above all rounds of acquire and release: which of them
    come to an end. */
module SemaphoreRounds {
  import opened TaskSums
  import opened Runs
  import opened WaitProtocol
  import opened Semaphore
  import opened SemaphoreTheorems

  function Balance(todo: seq<Job>): int {
    Sum(todo, JobReturn) - Sum(todo, IsAcquire)
  }

  /** From any of its acquires on, the program gives back no more than it takes. */
  predicate NoProfit(todo: seq<Job>) {
    forall i :: 0 <= i < |todo| && todo[i] == Acquire ==> Balance(todo[i..]) <= 0
  }

  predicate GivesBack(task: Task) {
    NeverTries(task) && NoProfit(task.todo) && (InAcquire(task) == 1 ==> Net(task) <= 0)
  }

  predicate AllGiveBack(s: State) {
    forall t :: 0 <= t < |s.tasks| ==> GivesBack(s.tasks[t])
  }

  lemma RestGivesBack(todo: seq<Job>)
    requires todo != [] && NoProfit(todo)
    ensures NoProfit(todo[1..]) && (todo[0] == Acquire ==> Balance(todo[1..]) <= 1)
  {
    forall i | 0 <= i < |todo[1..]| && todo[1..][i] == Acquire ensures Balance(todo[1..][i..]) <= 0 {
      assert todo[1..][i..] == todo[i + 1..];
    }
    if todo[0] == Acquire {
      assert todo[0..] == todo;
      SumFirst(todo, JobReturn);
      SumFirst(todo, IsAcquire);
    }
  }

  lemma ActorGivesBack(s: State, t: TaskId, weak: bool, s': State)
    requires t < |s.tasks| == |s.q.local| && s.q.local[t] == [] && Next(s, t, weak) == Some(s')
    requires GivesBack(s.tasks[t]) && |s'.tasks| == |s.tasks| && NeverTries(s'.tasks[t])
    ensures GivesBack(s'.tasks[t])
  {
    if s.tasks[t].pc == Ready {
      RestGivesBack(s.tasks[t].todo);
    }
  }

  lemma StepGivesBack(s: State, t: TaskId, weak: bool, s': State)
    requires Inv(s) && AllGiveBack(s) && t < |s.tasks| && Next(s, t, weak) == Some(s')
    ensures AllGiveBack(s')
  {
    assert GivesBack(s.tasks[t]);
    if s.q.local[t] != [] {
      WokenShape(s, t, weak, s');
      assert GivesBack(s.tasks[s.q.local[t][0]]);
    } else {
      ActorPermits(s, t, weak, s');
      ActorGivesBack(s, t, weak, s');
    }
  }

  lemma RunGivesBack(run: seq<State>)
    requires IsRun(Init, Steps, run) && AllGiveBack(run[0])
    ensures AllGiveBack(run[|run| - 1])
  {
    var inv := (s: State) => Inv(s) && AllGiveBack(s);
    InitHasInv(run[0]);
    forall s, s' | inv(s) && Steps(s, s') ensures inv(s') {
      var t: TaskId, weak: bool :| t < |s.tasks| && Next(s, t, weak) == Some(s');
      NextKeepsInv(s, t, weak);
      StepGivesBack(s, t, weak, s');
    }
    InvariantHolds(Init, Steps, inv, run);
  }

  predicate AllFinished(s: State) {
    forall t :: 0 <= t < |s.tasks| ==> Finished(s.tasks[t])
  }

  lemma FinishedOwesNothing(s: State)
    requires AllFinished(s)
    ensures Potential(s) == s.counter
  {
    SumZero(s.tasks, Net);
  }

  /** Whoever sleeps at the end still wants at least what it would give back. */
  lemma SleepersOwe(s: State)
    requires Inv(s) && Stuck(s) && AllGiveBack(s) && !AllFinished(s)
    ensures Potential(s) <= 0
  {
    StuckExactly(s);
    var u: TaskId :| u < |s.tasks| && !Finished(s.tasks[u]);
    assert ParkedAt(PhasesOf(s.tasks), u);
    forall t | 0 <= t < |s.tasks| ensures Net(s.tasks[t]) <= 0 {
      assert GivesBack(s.tasks[t]);
    }
    SumAtMost(s.tasks, 0, Net);
  }

  /** Tasks that give back no more than they take all finish, with the permits that are over in
      the counter, if one at least is over; if more are wanted than there are, not all finish. */
  lemma GivingBackCompletes(run: seq<State>)
    requires IsRun(Init, Steps, run) && AllGiveBack(run[0]) && Stuck(run[|run| - 1])
    ensures var last := run[|run| - 1];
            && (AllFinished(last) ==> last.counter == Potential(run[0]))
            && (0 < Potential(run[0]) ==> AllFinished(last))
            && (Potential(run[0]) < 0 ==> !AllFinished(last))
  {
    var last := run[|run| - 1];
    forall t | 0 <= t < |run[0].tasks| ensures NeverTries(run[0].tasks[t]) {
      assert GivesBack(run[0].tasks[t]);
    }
    PermitsConserved(run, |run| - 1);
    RunGivesBack(run);
    if AllFinished(last) {
      FinishedOwesNothing(last);
    } else {
      SleepersOwe(last);
    }
  }

  // Rounds of acquire and release

  function Rounds(r: nat): seq<Job> {
    if r == 0 then [] else [Acquire, Release(1)] + Rounds(r - 1)
  }

  predicate DoRounds(s: State, rounds: seq<nat>) {
    |s.tasks| == |rounds| && forall t :: 0 <= t < |rounds| ==> s.tasks[t].todo == Rounds(rounds[t])
  }

  lemma {:induction false} RoundsGiveBack(r: nat)
    ensures NoProfit(Rounds(r)) && TryAcquire !in Rounds(r) && Balance(Rounds(r)) == 0
  {
    if r > 0 {
      RoundsGiveBack(r - 1);
      var todo, rest := Rounds(r), Rounds(r - 1);
      assert todo[1..][1..] == rest && todo[0..] == todo;
      SumFirst(todo, JobReturn);
      SumFirst(todo[1..], JobReturn);
      SumFirst(todo, IsAcquire);
      SumFirst(todo[1..], IsAcquire);
      forall i | 0 <= i < |todo| && todo[i] == Acquire ensures Balance(todo[i..]) <= 0 {
        if i > 1 {
          assert todo[i..] == rest[i - 2..] && rest[i - 2] == Acquire;
        }
      }
    }
  }

  lemma RoundsConserve(s: State, rounds: seq<nat>)
    requires Init(s) && DoRounds(s, rounds)
    ensures AllGiveBack(s) && Potential(s) == s.counter
  {
    forall t: nat | t < |rounds| ensures GivesBack(s.tasks[t]) && Net(s.tasks[t]) == 0 {
      RoundsGiveBack(rounds[t]);
    }
    SumZero(s.tasks, Net);
  }

  /** Without a permit nobody gets through its first acquire. */
  predicate Starves(task: Task) {
    match task.pc
    case Ready => task.todo == [] || task.todo[0] == Acquire
    case Enter(b) => b
    case Wait(_) => true
    case _ => false
  }

  predicate Starving(s: State, z: TaskId) {
    && s.counter == 0 && z < |s.tasks| && !Finished(s.tasks[z])
    && forall t :: 0 <= t < |s.tasks| ==> Starves(s.tasks[t])
  }

  lemma StarvingStep(s: State, t: TaskId, weak: bool, s': State, z: TaskId)
    requires Inv(s) && Starving(s, z) && t < |s.tasks| && Next(s, t, weak) == Some(s')
    ensures Starving(s', z)
  {
    assert Starves(s.tasks[t]) && s.q.local[t] == [];
  }

  lemma StarvingRun(run: seq<State>, z: TaskId)
    requires IsRun(Init, Steps, run) && Starving(run[0], z)
    ensures Starving(run[|run| - 1], z)
  {
    var inv := (s: State) => Inv(s) && Starving(s, z);
    InitHasInv(run[0]);
    forall s, s' | inv(s) && Steps(s, s') ensures inv(s') {
      var t: TaskId, weak: bool :| t < |s.tasks| && Next(s, t, weak) == Some(s');
      NextKeepsInv(s, t, weak);
      StarvingStep(s, t, weak, s', z);
    }
    InvariantHolds(Init, Steps, inv, run);
  }

  lemma NobodyGetsThrough(run: seq<State>, rounds: seq<nat>, z: TaskId)
    requires IsRun(Init, Steps, run) && DoRounds(run[0], rounds) && run[0].counter == 0
    requires z < |rounds| && 0 < rounds[z]
    ensures Starving(run[|run| - 1], z)
  {
    forall t: nat | t < |rounds| ensures Starves(run[0].tasks[t]) {
      assert run[0].tasks[t].todo == Rounds(rounds[t]);
    }
    assert run[0].tasks[z].todo != [];
    StarvingRun(run, z);
  }

  /** The semaphore used as a lock, or to let some in at a time: task t does rounds[t] rounds of
      acquire and release.  However they are interleaved, they have all finished at the end, and
      all permits are back, just when there was one to begin with or nothing to do. */
  lemma RoundsFinishExactly(run: seq<State>, rounds: seq<nat>)
    requires IsRun(Init, Steps, run) && DoRounds(run[0], rounds) && Stuck(run[|run| - 1])
    ensures var last := run[|run| - 1];
            AllFinished(last) && last.counter == run[0].counter <==>
              0 < run[0].counter || forall t :: 0 <= t < |rounds| ==> rounds[t] == 0
  {
    var first, last := run[0], run[|run| - 1];
    RoundsConserve(first, rounds);
    GivingBackCompletes(run);
    if first.counter == 0 {
      if z: TaskId :| z < |rounds| && 0 < rounds[z] {
        NobodyGetsThrough(run, rounds, z);
      } else {
        NothingToDo(run, rounds);
      }
    }
  }

  lemma NothingToDo(run: seq<State>, rounds: seq<nat>)
    requires IsRun(Init, Steps, run) && DoRounds(run[0], rounds) && forall t :: 0 <= t < |rounds| ==> rounds[t] == 0
    ensures |run| == 1 && AllFinished(run[0])
  {
    forall t: nat | t < |rounds| ensures Finished(run[0].tasks[t]) {
      assert run[0].tasks[t].todo == Rounds(rounds[t]);
    }
    if |run| > 1 {
      FinishedCannotStep(run[0], run[1]);
    }
  }

  lemma FinishedCannotStep(s: State, s': State)
    requires Init(s) && AllFinished(s)
    ensures !Steps(s, s')
  {
  }
}
