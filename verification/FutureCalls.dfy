/** What each call on a shared state answers, over whole runs: the value, the exception or the error
    that its caller sees. */
module FutureCalls {
  import opened TaskSums
  import opened Runs
  import opened WaitProtocol
  import opened Future

  predicate Calls(s: State, t: TaskId, job: Job) {
    t < |s.tasks| && s.tasks[t].pc == Ready && s.tasks[t].todo != [] && s.tasks[t].todo[0] == job
  }

  /** The run from a to b is one call of task t, from the step that begins it to the first state in
      which it has returned. */
  ghost predicate IsCall(run: seq<State>, a: nat, b: nat, t: TaskId, job: Job) {
    && a < b < |run| && Calls(run[a], t, job)
    && (forall i :: a < i <= b ==> t < |run[i].tasks| && run[i].tasks[t].todo == run[a].tasks[t].todo[1..])
    && (forall i :: a < i < b ==> run[i].tasks[t].pc != Ready)
    && run[b].tasks[t].pc == Ready
  }

  /** What get returns or throws when `job` was the call that took effect. */
  predicate Delivers(isVoid: bool, job: Job, result: Result) {
    && (job.SetValue? ==> result == Got(if isVoid then None else Some(job.value)))
    && (job.SetThrowing? ==> result == if isVoid then Got(None) else Threw(Some(job.error)))
    && (job.SetException? ==> result == Threw(Some(job.error)))
    && (job.Break? ==> result == BrokenPromise)
  }

  predicate Gets(pc: Pc) {
    pc.Waiting? || pc == Returning
  }

  predicate Sets(pc: Pc) {
    pc != Ready && !Gets(pc)
  }

  /** The first step of a call: get goes on to wait, and any other call takes effect exactly if the
      state is empty; if it is not, set_value and set_exception throw at once, and break_promise
      returns. */
  predicate Begins(job: Job, s: State, s': State, task: Task, task': Task) {
    if job.Get? then
      Gets(task'.pc) && task'.results == task.results && s'.won == s.won
    else if s.status == Empty then
      Sets(task'.pc) && task'.results == task.results && s'.won == [job]
    else
      && task'.pc == Ready && s'.won == s.won
      && task'.results == task.results + if job.Break? then [] else [AlreadySatisfied]
  }

  /** A further step: nothing is added to the results but what get delivers, by the way out. */
  predicate GoesOn(job: Job, s: State, s': State, task: Task, task': Task) {
    if job.Get? then
      if task'.pc == Ready
      then |task'.results| == |task.results| + 1 && task'.results[..|task.results|] == task.results
           && s.won != [] && Delivers(s.isVoid, s.won[0], task'.results[|task.results|])
      else Gets(task'.pc) && task'.results == task.results
    else
      task'.results == task.results && if task'.pc == Ready then IsReady(s'.status) else Sets(task'.pc)
  }

  lemma OwnBegins(s: State, t: TaskId, s': State, job: Job)
    requires Sized(s) && Calls(s, t, job) && Next(s, t) == Some(s') && WinnerOk(s)
    ensures |s'.tasks| == |s.tasks| && s'.tasks[t].todo == s.tasks[t].todo[1..]
    ensures Begins(job, s, s', s.tasks[t], s'.tasks[t])
  {
  }

  lemma OwnGoesOn(s: State, t: TaskId, s': State, job: Job)
    requires Sized(s) && t < |s.tasks| && Next(s, t) == Some(s') && WokenOk(s, t)
    requires WinnerOk(s) && TaskOk(s, s.tasks[t])
    requires if job.Get? then Gets(s.tasks[t].pc) else Sets(s.tasks[t].pc)
    ensures |s'.tasks| == |s.tasks| && GoesOn(job, s, s', s.tasks[t], s'.tasks[t])
  {
  }

  lemma OthersStay(s: State, u: TaskId, s': State, t: TaskId)
    requires Sized(s) && u < |s.tasks| && WokenOk(s, u) && Next(s, u) == Some(s') && t < |s.tasks| && t != u
    ensures |s'.tasks| == |s.tasks|
    ensures || s'.tasks[t] == s.tasks[t]
            || (s.tasks[t].pc == Waiting(Parked) && s'.tasks[t] == s.tasks[t].(pc := Returning))
  {
    StepShape(s, u, s');
  }

  predicate Under(job: Job, pc: Pc) {
    if job.Get? then Gets(pc) else Sets(pc)
  }

  lemma CallStep(s: State, s': State, t: TaskId, job: Job)
    requires Inv(s) && Steps(s, s') && t < |s.tasks| && Under(job, s.tasks[t].pc)
    ensures |s'.tasks| == |s.tasks| && GoesOn(job, s, s', s.tasks[t], s'.tasks[t])
  {
    var u: TaskId :| u < |s.tasks| && Next(s, u) == Some(s');
    WokenTaskWaits(s, u);
    assert TaskOk(s, s.tasks[t]);
    if u == t {
      OwnGoesOn(s, t, s', job);
    } else {
      OthersStay(s, u, s', t);
    }
  }

  lemma CallBegins(s: State, s': State, t: TaskId, job: Job)
    requires Inv(s) && Steps(s, s') && Calls(s, t, job)
    requires t < |s'.tasks| && s'.tasks[t].todo == s.tasks[t].todo[1..]
    ensures Begins(job, s, s', s.tasks[t], s'.tasks[t])
  {
    var u: TaskId :| u < |s.tasks| && Next(s, u) == Some(s');
    WokenTaskWaits(s, u);
    if u == t {
      OwnBegins(s, t, s', job);
    } else {
      OthersStay(s, u, s', t);
    }
  }

  /** The call from a to b with what its steps do; what follows needs no more of the run. */
  ghost predicate Tracked(run: seq<State>, a: nat, b: nat, t: TaskId, job: Job) {
    && IsCall(run, a, b, t, job)
    && t < |run[a + 1].tasks| && Begins(job, run[a], run[a + 1], run[a].tasks[t], run[a + 1].tasks[t])
    && forall i :: a < i < b && t < |run[i].tasks| && Under(job, run[i].tasks[t].pc) ==>
         t < |run[i + 1].tasks| && GoesOn(job, run[i], run[i + 1], run[i].tasks[t], run[i + 1].tasks[t])
  }

  lemma CallTracked(run: seq<State>, a: nat, b: nat, t: TaskId, job: Job)
    requires IsRun(Init, Steps, run) && IsCall(run, a, b, t, job)
    ensures Tracked(run, a, b, t, job)
  {
    RunHasInv(run, a);
    CallBegins(run[a], run[a + 1], t, job);
    forall i | a < i < b && t < |run[i].tasks| && Under(job, run[i].tasks[t].pc)
      ensures t < |run[i + 1].tasks| && GoesOn(job, run[i], run[i + 1], run[i].tasks[t], run[i + 1].tasks[t])
    {
      RunHasInv(run, i);
      CallStep(run[i], run[i + 1], t, job);
    }
  }

  /** Up to its last step a call that does not end at once has added nothing to the results. */
  lemma TrackedSilent(run: seq<State>, a: nat, b: nat, t: TaskId, job: Job)
    requires Tracked(run, a, b, t, job) && a + 1 < b
    ensures forall i :: a < i < b ==> Under(job, run[i].tasks[t].pc)
    ensures run[b - 1].tasks[t].results == run[a].tasks[t].results
  {
    var results := run[a].tasks[t].results;
    var p := (s: State) => t < |s.tasks| && Under(job, s.tasks[t].pc) && s.tasks[t].results == results;
    KeptFrom(run, a + 1, b - 1, p);
    assert p(run[b - 1]);
  }

  /** Every completed setter in every run.  If none has taken effect before, it does, and returns with
      the state ready and nothing thrown; otherwise set_value and set_exception throw
      promise_already_satisfied, once, while break_promise does nothing. */
  lemma SetterAnswered(run: seq<State>, a: nat, b: nat, t: TaskId, job: Job)
    requires IsRun(Init, Steps, run) && IsCall(run, a, b, t, job) && !job.Get?
    ensures run[a].won == [] ==>
              && run[a + 1].won == [job] && IsReady(run[b].status)
              && run[b].tasks[t].results == run[a].tasks[t].results
    ensures run[a].won != [] ==>
              && b == a + 1 && run[b].won == run[a].won
              && run[b].tasks[t].results == run[a].tasks[t].results + if job.Break? then [] else [AlreadySatisfied]
  {
    CallTracked(run, a, b, t, job);
    EmptyMeansUnset(run, a);
    TrackedSetter(run, a, b, t, job);
  }

  lemma EmptyMeansUnset(run: seq<State>, i: nat)
    requires IsRun(Init, Steps, run) && i < |run|
    ensures run[i].status == Empty <==> run[i].won == []
  {
    RunHasInv(run, i);
  }

  lemma TrackedSetter(run: seq<State>, a: nat, b: nat, t: TaskId, job: Job)
    requires Tracked(run, a, b, t, job) && !job.Get? && (run[a].status == Empty <==> run[a].won == [])
    ensures run[a].won == [] ==>
              && run[a + 1].won == [job] && IsReady(run[b].status)
              && run[b].tasks[t].results == run[a].tasks[t].results
    ensures run[a].won != [] ==>
              && b == a + 1 && run[b].won == run[a].won
              && run[b].tasks[t].results == run[a].tasks[t].results + if job.Break? then [] else [AlreadySatisfied]
  {
    if a + 1 < b {
      TrackedSilent(run, a, b, t, job);
      var i := b - 1;
      assert GoesOn(job, run[i], run[i + 1], run[i].tasks[t], run[i + 1].tasks[t]);
    }
  }

  /** Every completed get in every run returns or throws once: the value, the exception or the
      broken promise of the one call that took effect. */
  lemma GetterAnswered(run: seq<State>, a: nat, b: nat, t: TaskId)
    requires IsRun(Init, Steps, run) && IsCall(run, a, b, t, Get)
    ensures var before, after := run[a].tasks[t].results, run[b].tasks[t].results;
            && |after| == |before| + 1 && after[..|before|] == before
            && run[b].won != [] && !run[b].won[0].Get?
            && Delivers(run[0].isVoid, run[b].won[0], after[|before|])
  {
    GetterDelivers(run, a, b, t);
    WinnerStays(run, b);
  }

  lemma GetterDelivers(run: seq<State>, a: nat, b: nat, t: TaskId)
    requires IsRun(Init, Steps, run) && IsCall(run, a, b, t, Get)
    ensures var before, after := run[a].tasks[t].results, run[b].tasks[t].results;
            && |after| == |before| + 1 && after[..|before|] == before
            && run[b - 1].won != [] && Delivers(run[b - 1].isVoid, run[b - 1].won[0], after[|before|])
  {
    CallTracked(run, a, b, t, Get);
    TrackedGetter(run, a, b, t);
  }

  lemma TrackedGetter(run: seq<State>, a: nat, b: nat, t: TaskId)
    requires Tracked(run, a, b, t, Get)
    ensures var before, after := run[a].tasks[t].results, run[b].tasks[t].results;
            && |after| == |before| + 1 && after[..|before|] == before
            && run[b - 1].won != [] && Delivers(run[b - 1].isVoid, run[b - 1].won[0], after[|before|])
  {
    TrackedSilent(run, a, b, t, Get);
    var i := b - 1;
    assert GoesOn(Get, run[i], run[i + 1], run[i].tasks[t], run[i + 1].tasks[t]);
  }

  /** Which call took effect does not change, and is not a get. */
  predicate SameWinner(isVoid: bool, s: State) {
    s.isVoid == isVoid && (s.won != [] ==> !s.won[0].Get?)
  }

  lemma StepKeepsWinner(s: State, t: TaskId, s': State)
    requires WinnerOk(s) && Sized(s) && t < |s.tasks| && WokenOk(s, t) && Next(s, t) == Some(s')
    requires TaskOk(s, s.tasks[t]) && SameWinner(s.isVoid, s)
    ensures SameWinner(s.isVoid, s') && (s.won != [] ==> s'.won == s.won)
  {
  }

  lemma WinnerSteps(run: seq<State>, i: nat)
    requires IsRun(Init, Steps, run) && i + 1 < |run| && SameWinner(run[0].isVoid, run[i])
    ensures SameWinner(run[0].isVoid, run[i + 1]) && (run[i].won != [] ==> run[i + 1].won == run[i].won)
  {
    RunHasInv(run, i);
    var t: TaskId :| t < |run[i].tasks| && Next(run[i], t) == Some(run[i + 1]);
    WokenTaskWaits(run[i], t);
    assert TaskOk(run[i], run[i].tasks[t]);
    StepKeepsWinner(run[i], t, run[i + 1]);
  }

  lemma WinnerStays(run: seq<State>, i: nat)
    requires IsRun(Init, Steps, run) && i < |run|
    ensures forall j :: 0 <= j <= i ==> SameWinner(run[0].isVoid, run[j])
    ensures forall j :: 0 <= j < i && run[j].won != [] ==> run[j + 1].won == run[j].won
  {
    var isVoid := run[0].isVoid;
    forall j: nat | j < i && SameWinner(isVoid, run[j]) ensures SameWinner(isVoid, run[j + 1]) {
      WinnerSteps(run, j);
    }
    KeptFrom(run, 0, i, (s: State) => SameWinner(isVoid, s));
    forall j | 0 <= j < i && run[j].won != [] ensures run[j + 1].won == run[j].won {
      WinnerSteps(run, j);
    }
  }

  // All answers together

  function IsSetter(job: Job): int {
    if job.Get? || job.Break? then 0 else 1
  }

  function IsGet(job: Job): int {
    if job.Get? then 1 else 0
  }

  function IsError(result: Result): int {
    if result.AlreadySatisfied? then 1 else 0
  }

  function IsOutcome(result: Result): int {
    1 - IsError(result)
  }

  /** Calls of set_value and set_exception still to be made, and those that threw. */
  function Setters(task: Task): int {
    Sum(task.todo, IsSetter) + Sum(task.results, IsError)
  }

  /** Calls of get still to be made, under way, or answered. */
  function Getters(task: Task): int {
    Sum(task.todo, IsGet) + (if Gets(task.pc) then 1 else 0) + Sum(task.results, IsOutcome)
  }

  function Winners(won: seq<Job>): int {
    if won != [] then IsSetter(won[0]) else 0
  }

  lemma OneMore(results: seq<Result>, r: Result)
    ensures Sum(results + [r], IsError) == Sum(results, IsError) + IsError(r)
    ensures Sum(results + [r], IsOutcome) == Sum(results, IsOutcome) + IsOutcome(r)
  {
    assert (results + [r])[..|results|] == results;
  }

  /** Begun or not, answered or not: each call is counted once. */
  predicate SameCounts(s: State, s': State, task: Task, task': Task) {
    Setters(task') + Winners(s'.won) == Setters(task) + Winners(s.won) && Getters(task') == Getters(task)
  }

  lemma BegunCounts(s: State, s': State, task: Task, task': Task)
    requires task.pc == Ready && task.todo != [] && task'.todo == task.todo[1..]
    requires Begins(task.todo[0], s, s', task, task') && (s.status == Empty <==> s.won == [])
    ensures SameCounts(s, s', task, task')
  {
    SumFirst(task.todo, IsSetter);
    SumFirst(task.todo, IsGet);
    OneMore(task.results, AlreadySatisfied);
    assert task.results + [] == task.results;
  }

  lemma ReturningCounts(s: State, t: TaskId, s': State)
    requires Sized(s) && t < |s.tasks| && s.tasks[t].pc == Returning && Next(s, t) == Some(s')
    ensures |s'.tasks| == |s.tasks| && SameCounts(s, s', s.tasks[t], s'.tasks[t])
  {
    OneMore(s.tasks[t].results, Outcome(s));
  }

  lemma MovingShape(s: State, t: TaskId, s': State)
    requires Sized(s) && t < |s.tasks| && s.q.local[t] == [] && Next(s, t) == Some(s')
    requires s.tasks[t].pc != Ready && s.tasks[t].pc != Returning && TaskOk(s, s.tasks[t])
    ensures |s'.tasks| == |s.tasks| && s'.won == s.won && s'.tasks[t] == s.tasks[t].(pc := s'.tasks[t].pc)
    ensures Gets(s'.tasks[t].pc) <==> Gets(s.tasks[t].pc)
  {
  }

  /** What a task does on its own account leaves the two counts as they are. */
  lemma OwnCounts(s: State, t: TaskId, s': State)
    requires Sized(s) && t < |s.tasks| && s.q.local[t] == [] && Next(s, t) == Some(s')
    requires WinnerOk(s) && TaskOk(s, s.tasks[t])
    ensures |s'.tasks| == |s.tasks| && SameCounts(s, s', s.tasks[t], s'.tasks[t])
  {
    if s.tasks[t].pc == Ready {
      OwnBegins(s, t, s', s.tasks[t].todo[0]);
      BegunCounts(s, s', s.tasks[t], s'.tasks[t]);
    } else if s.tasks[t].pc == Returning {
      ReturningCounts(s, t, s');
    } else {
      MovingShape(s, t, s');
    }
  }

  function TotalSetters(s: State): int {
    Sum(s.tasks, Setters) + Winners(s.won)
  }

  function TotalGetters(s: State): int {
    Sum(s.tasks, Getters)
  }

  lemma StepKeepsCounts(s: State, s': State)
    requires Inv(s) && Steps(s, s')
    ensures TotalSetters(s') == TotalSetters(s) && TotalGetters(s') == TotalGetters(s)
  {
    var t: TaskId :| t < |s.tasks| && Next(s, t) == Some(s');
    WokenTaskWaits(s, t);
    StepShape(s, t, s');
    assert TaskOk(s, s.tasks[t]);
    var u := if s.q.local[t] != [] then s.q.local[t][0] else t;
    if s.q.local[t] == [] {
      OwnCounts(s, t, s');
    }
    SumUpdate(s.tasks, u, s'.tasks[u], Setters);
    SumUpdate(s.tasks, u, s'.tasks[u], Getters);
  }

  function SettersOf(task: Task): int {
    Sum(task.todo, IsSetter)
  }

  function GetsOf(task: Task): int {
    Sum(task.todo, IsGet)
  }

  function ErrorsOf(task: Task): int {
    Sum(task.results, IsError)
  }

  function OutcomesOf(task: Task): int {
    Sum(task.results, IsOutcome)
  }

  /** When everybody has returned, all calls of set_value and set_exception but the one that took
      effect, if one did, have thrown promise_already_satisfied, once each and nobody else, and every
      call of get has been answered once. */
  lemma AllAnswered(run: seq<State>)
    requires IsRun(Init, Steps, run) && AllFinished(run[|run| - 1])
    ensures var first, last := run[0], run[|run| - 1];
            && Sum(first.tasks, SettersOf) == Sum(last.tasks, ErrorsOf)
               + (if last.won != [] && !last.won[0].Break? then 1 else 0)
            && Sum(first.tasks, GetsOf) == Sum(last.tasks, OutcomesOf)
  {
    var first, last := run[0], run[|run| - 1];
    RunHasInv(run, 0);
    StepsPreserveInv();
    forall s, s' | Inv(s) && Steps(s, s')
      ensures TotalSetters(s') == TotalSetters(s) && TotalGetters(s') == TotalGetters(s)
    {
      StepKeepsCounts(s, s');
    }
    QuantityConserved(Init, Steps, Inv, TotalSetters, run);
    QuantityConserved(Init, Steps, Inv, TotalGetters, run);
    WinnerStays(run, |run| - 1);
    AtTheStart(first.tasks);
    AtTheEnd(last.tasks);
  }

  lemma AtTheStart(tasks: seq<Task>)
    requires forall t :: 0 <= t < |tasks| ==> tasks[t].pc == Ready && tasks[t].results == []
    ensures Sum(tasks, Setters) == Sum(tasks, SettersOf) && Sum(tasks, Getters) == Sum(tasks, GetsOf)
  {
    SumSplit(tasks, Setters, SettersOf, tasks, _ => 0);
    SumSplit(tasks, Getters, GetsOf, tasks, _ => 0);
    SumZero(tasks, _ => 0);
  }

  lemma AtTheEnd(tasks: seq<Task>)
    requires forall t :: 0 <= t < |tasks| ==> Finished(tasks[t])
    ensures Sum(tasks, Setters) == Sum(tasks, ErrorsOf) && Sum(tasks, Getters) == Sum(tasks, OutcomesOf)
  {
    SumSplit(tasks, Setters, ErrorsOf, tasks, _ => 0);
    SumSplit(tasks, Getters, OutcomesOf, tasks, _ => 0);
    SumZero(tasks, _ => 0);
  }
}
