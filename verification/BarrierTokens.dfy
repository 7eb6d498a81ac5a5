/** What arrive counts and returns, and that the wait with it is for the phase of the arrival. */
module BarrierTokens {
  import opened TaskSums
  import opened Runs
  import opened WaitProtocol
  import opened Barrier

  ghost predicate StepOf(s: State, s': State, t: TaskId) {
    Sized(s) && t < |s.tasks| && Next(s, t) == Some(s')
  }

  predicate Calls(s: State, t: TaskId, job: Job) {
    t < |s.tasks| && s.tasks[t].pc == Ready && s.tasks[t].todo != [] && s.tasks[t].todo[0] == job
  }

  /** The run from a to b is one call of task t, from the step that begins it to the first state in
      which it has returned. */
  ghost predicate IsCall(run: seq<State>, a: nat, b: nat, t: TaskId, job: Job) {
    && a < b < |run| && Calls(run[a], t, job)
    && (forall i :: a < i <= b ==> t < |run[i].tasks| && run[i].tasks[t].todo == run[a].tasks[t].todo[1..])
    && (forall i :: a < i < b ==> run[i].tasks[t].pc != Ready)
    && run[b].tasks[t].pc == Ready
  }

  /** Before its update, which is n, in phase k. */
  predicate Arriving(s: State, task: Task, n: nat, k: nat) {
    s.phase == k && (task.pc == Loaded(n, k) || (task.pc == Dropped && n == 1))
  }

  /** The update made, completing phase k if it was the last. */
  predicate Completing(task: Task, k: nat) {
    task.pc.Last? && task.pc.phase == k
  }

  predicate Returned(task: Task, k: nat) {
    task.pc == Ready && task.token == Some(k)
  }

  /** The step in which the update is made. */
  predicate Counts(s: State, s': State, task: Task, n: nat, k: nat) {
    && task.pc == Loaded(n, k) && k < |s.arrived|
    && s'.expected == s.expected - n && s'.arrived == s.arrived[k := s.arrived[k] + n]
  }

  lemma ArriverStep(s: State, t: TaskId, s': State, n: nat, k: nat)
    requires Sized(s) && t < |s.tasks| && s.q.local[t] == [] && Next(s, t) == Some(s')
    requires Arriving(s, s.tasks[t], n, k) && k < |s.arrived|
    ensures |s'.tasks| == |s.tasks| && s'.tasks[t].todo == s.tasks[t].todo
    ensures || (Arriving(s', s'.tasks[t], n, k) && s'.arrived == s.arrived && s'.expected == s.expected)
            || (Counts(s, s', s.tasks[t], n, k) && (Completing(s'.tasks[t], k) || Returned(s'.tasks[t], k)))
  {
  }

  lemma CompleterStep(s: State, t: TaskId, s': State, k: nat)
    requires Sized(s) && t < |s.tasks| && WokenOk(s, t) && Next(s, t) == Some(s')
    requires Completing(s.tasks[t], k) && k < |s.arrived|
    ensures |s'.tasks| == |s.tasks| && s'.tasks[t].todo == s.tasks[t].todo
    ensures Completing(s'.tasks[t], k) || Returned(s'.tasks[t], k)
    ensures k < |s'.arrived| && s'.arrived[k] == s.arrived[k]
  {
  }

  lemma OthersStay(s: State, u: TaskId, s': State, t: TaskId)
    requires Sized(s) && u < |s.tasks| && WokenOk(s, u) && Next(s, u) == Some(s') && t < |s.tasks| && t != u
    ensures |s'.tasks| == |s.tasks|
    ensures s'.tasks[t] == s.tasks[t] || (IsParkedTask(s.tasks[t]) && s'.tasks[t] == s.tasks[t].(pc := Ready))
  {
    StepShape(s, u, s');
  }

  /** Nobody closes a phase while somebody is arriving. */
  lemma PhaseHeld(s: State, u: TaskId, s': State, t: TaskId)
    requires QueueOk(s) && CountsOk(s) && u < |s.tasks| && t < |s.tasks| && Next(s, u) == Some(s')
    requires 0 < Pending(s.tasks[t])
    ensures s'.phase == s.phase
  {
    NextPhaseMoves(s, u, s');
    if IsStoring(s.tasks[u]) {
      OpenerIsAlone(s, u);
      SumAtLeast(s.tasks, t, Pending);
    }
  }

  /** What a step may do to task t while it arrives in phase k with an update of n. */
  ghost predicate Advances(s: State, s': State, t: TaskId, n: nat, k: nat) {
    t < |s.tasks| && k <= s.phase && (Arriving(s, s.tasks[t], n, k) || Completing(s.tasks[t], k)) ==>
      && t < |s'.tasks| && k <= s'.phase && k < |s.arrived| && k < |s'.arrived|
      && s'.tasks[t].todo == s.tasks[t].todo
      && (Arriving(s, s.tasks[t], n, k) ==>
            || (Arriving(s', s'.tasks[t], n, k) && (StepOf(s, s', t) ==> s'.arrived == s.arrived))
            || (Moves(s', t, k) && Counts(s, s', s.tasks[t], n, k) && StepOf(s, s', t)))
      && (Completing(s.tasks[t], k) ==>
            Moves(s', t, k) && (StepOf(s, s', t) ==> s'.arrived[k] == s.arrived[k]))
  }

  predicate Moves(s': State, t: TaskId, k: nat) {
    t < |s'.tasks| && (Completing(s'.tasks[t], k) || Returned(s'.tasks[t], k))
  }

  lemma CallStep(s: State, s': State, t: TaskId, n: nat, k: nat)
    requires Inv(s) && Steps(s, s') && 0 < n
    ensures Advances(s, s', t, n, k)
  {
    if t < |s.tasks| && k <= s.phase && (Arriving(s, s.tasks[t], n, k) || Completing(s.tasks[t], k)) {
      var u: TaskId :| u < |s.tasks| && Next(s, u) == Some(s') && ClientAllows(s, u);
      WokenTaskWaits(s, u);
      WokenTaskWaits(s, t);
      NextKeepsInv(s, u, s');
      NextPhaseMoves(s, u, s');
      if u != t {
        OthersStay(s, u, s', t);
      }
      if Arriving(s, s.tasks[t], n, k) {
        PhaseHeld(s, u, s', t);
        if StepOf(s, s', t) {
          ArriverStep(s, t, s', n, k);
        }
      } else if StepOf(s, s', t) {
        CompleterStep(s, t, s', k);
      }
    }
  }

  lemma CallBegins(s: State, s': State, t: TaskId, job: Job)
    requires Inv(s) && Steps(s, s') && Calls(s, t, job) && !job.Wait?
    requires t < |s'.tasks| && s'.tasks[t].todo == s.tasks[t].todo[1..]
    ensures 0 < Update(job) && s'.phase == s.phase && Arriving(s', s'.tasks[t], Update(job), s.phase)
  {
    var u: TaskId :| u < |s.tasks| && Next(s, u) == Some(s') && ClientAllows(s, u);
    WokenTaskWaits(s, u);
    if u != t {
      OthersStay(s, u, s', t);
    }
  }

  /** The call from a to b with what its steps do; what follows needs no more of the run. */
  ghost predicate Tracked(run: seq<State>, a: nat, b: nat, t: TaskId, n: nat, k: nat) {
    && a < b < |run| && t < |run[a + 1].tasks| && k <= run[a + 1].phase
    && Arriving(run[a + 1], run[a + 1].tasks[t], n, k)
    && forall i :: a < i < b ==> Advances(run[i], run[i + 1], t, n, k)
  }

  lemma CallTracked(run: seq<State>, a: nat, b: nat, t: TaskId, job: Job)
    requires IsRun(Init, Steps, run) && !job.Wait? && a < b < |run| && Calls(run[a], t, job)
    requires t < |run[a + 1].tasks| && run[a + 1].tasks[t].todo == run[a].tasks[t].todo[1..]
    ensures Tracked(run, a, b, t, Update(job), run[a].phase)
  {
    RunHasInv(run, a);
    CallBegins(run[a], run[a + 1], t, job);
    forall i | a < i < b ensures Advances(run[i], run[i + 1], t, Update(job), run[a].phase) {
      RunHasInv(run, i);
      CallStep(run[i], run[i + 1], t, Update(job), run[a].phase);
    }
  }

  /** A step of the call other than the update adds nothing to the arrivals of phase k. */
  ghost predicate CountsNothing(s: State, s': State, t: TaskId, k: nat) {
    StepOf(s, s', t) ==> k < |s.arrived| && k < |s'.arrived| && s'.arrived[k] == s.arrived[k]
  }

  /** The last state before the update. */
  lemma {:induction false} UpdateMade(run: seq<State>, a: nat, b: nat, t: TaskId, n: nat, k: nat, i: nat)
    returns (g: nat)
    requires Tracked(run, a, b, t, n, k) && a < i < b && t < |run[b].tasks| && run[b].tasks[t].pc == Ready
    requires t < |run[i].tasks| && k <= run[i].phase && Arriving(run[i], run[i].tasks[t], n, k)
    ensures i <= g < b && t < |run[g].tasks| && StepOf(run[g], run[g + 1], t) && run[g].phase == k
    ensures Counts(run[g], run[g + 1], run[g].tasks[t], n, k) && Moves(run[g + 1], t, k) && k <= run[g + 1].phase
    ensures forall j :: i <= j < g ==> CountsNothing(run[j], run[j + 1], t, k)
    decreases b - i
  {
    assert Advances(run[i], run[i + 1], t, n, k);
    if Moves(run[i + 1], t, k) {
      g := i;
    } else {
      g := UpdateMade(run, a, b, t, n, k, i + 1);
    }
  }

  /** From the update on the call completes its phase or has returned. */
  lemma UpdateMadeOnce(run: seq<State>, a: nat, b: nat, t: TaskId, n: nat, k: nat, g: nat)
    requires Tracked(run, a, b, t, n, k) && a < g < b && t < |run[b].tasks| && run[b].tasks[t].pc == Ready
    requires Moves(run[g + 1], t, k) && k <= run[g + 1].phase
    requires forall i :: a < i < b ==> t < |run[i].tasks| && run[i].tasks[t].pc != Ready
    ensures Returned(run[b].tasks[t], k)
    ensures forall i :: g < i < b ==> CountsNothing(run[i], run[i + 1], t, k)
  {
    var p := (s: State) => Moves(s, t, k) && k <= s.phase;
    forall i | g + 1 <= i < b && p(run[i]) ensures p(run[i + 1]) {
      assert Advances(run[i], run[i + 1], t, n, k);
    }
    KeptFrom(run, g + 1, b, p);
    assert p(run[b]);
    forall i | g < i < b ensures CountsNothing(run[i], run[i + 1], t, k) {
      assert p(run[i]) && Advances(run[i], run[i + 1], t, n, k);
    }
  }

  /** Every completed arrive(n), and arrive_and_drop, of every run in which arrivals fit, by the last
      arriver or another: it returns the phase in which it began, and in one of its steps, before
      that phase is over, it takes n from the count and adds n to the arrivals of that phase; no other
      step of it adds to them. */
  lemma ArrivalAnswered(run: seq<State>, a: nat, b: nat, t: TaskId, job: Job) returns (g: nat)
    requires IsRun(Init, Steps, run) && IsCall(run, a, b, t, job) && !job.Wait?
    ensures run[b].tasks[t].token == Some(run[a].phase)
    ensures a < g < b && StepOf(run[g], run[g + 1], t) && run[g].phase == run[a].phase < |run[g].arrived|
    ensures run[g + 1].expected == run[g].expected - Update(job)
    ensures run[g + 1].arrived == run[g].arrived[run[a].phase := run[g].arrived[run[a].phase] + Update(job)]
    ensures forall i :: a < i < b && i != g ==> CountsNothing(run[i], run[i + 1], t, run[a].phase)
  {
    CallTracked(run, a, b, t, job);
    g := TrackedArrival(run, a, b, t, Update(job), run[a].phase);
  }

  lemma TrackedArrival(run: seq<State>, a: nat, b: nat, t: TaskId, n: nat, k: nat) returns (g: nat)
    requires Tracked(run, a, b, t, n, k) && t < |run[b].tasks| && run[b].tasks[t].pc == Ready
    requires forall i :: a < i < b ==> t < |run[i].tasks| && run[i].tasks[t].pc != Ready
    ensures Returned(run[b].tasks[t], k)
    ensures a < g < b && StepOf(run[g], run[g + 1], t) && run[g].phase == k && t < |run[g].tasks|
    ensures Counts(run[g], run[g + 1], run[g].tasks[t], n, k)
    ensures forall i :: a < i < b && i != g ==> CountsNothing(run[i], run[i + 1], t, k)
  {
    assert a + 1 < b;
    g := UpdateMade(run, a, b, t, n, k, a + 1);
    UpdateMadeOnce(run, a, b, t, n, k, g);
  }

  // Waiting with what arrive returned

  predicate WillWait(s: State, t: TaskId, n: nat, k: nat, rest: seq<Job>) {
    && t < |s.tasks| && k <= s.phase && s.tasks[t].todo == [Wait] + rest
    && (Arriving(s, s.tasks[t], n, k) || Completing(s.tasks[t], k) || Returned(s.tasks[t], k))
  }

  predicate Waits(s: State, t: TaskId, k: nat, rest: seq<Job>) {
    && t < |s.tasks| && |s.tasks[t].todo| <= |rest|
    && (k < s.phase || (s.tasks[t].todo == rest && InWait(s.tasks[t].pc) == Some(k)))
  }

  /** On its way to the wait, in it, or past it with phase k over. */
  predicate KeepsToPhase(s: State, t: TaskId, n: nat, k: nat, rest: seq<Job>) {
    WillWait(s, t, n, k, rest) || Waits(s, t, k, rest)
  }

  lemma TodoShrinks(s: State, u: TaskId, s': State, t: TaskId)
    requires Sized(s) && u < |s.tasks| && WokenOk(s, u) && Next(s, u) == Some(s') && t < |s.tasks|
    ensures |s'.tasks| == |s.tasks| && |s'.tasks[t].todo| <= |s.tasks[t].todo|
    ensures InWait(s.tasks[t].pc).Some? ==> s'.tasks[t].todo == s.tasks[t].todo
  {
  }

  lemma StaysInWait(s: State, s': State, t: TaskId, k: nat, rest: seq<Job>)
    requires CarefulInv(s) && CarefulSteps(s, s') && Waits(s, t, k, rest)
    ensures Waits(s', t, k, rest)
  {
    var u: TaskId :| u < |s.tasks| && Next(s, u) == Some(s') && ClientAllows(s, u) && Careful(s, u);
    WokenTaskWaits(s, u);
    NextPhaseMoves(s, u, s');
    TodoShrinks(s, u, s', t);
    if k >= s.phase {
      LeavesAfterwards(s, u, s', t, k);
    }
  }

  lemma EntersWait(s: State, s': State, t: TaskId, n: nat, k: nat, rest: seq<Job>)
    requires Inv(s) && Steps(s, s') && WillWait(s, t, n, k, rest) && Returned(s.tasks[t], k)
    ensures KeepsToPhase(s', t, n, k, rest)
  {
    var u: TaskId :| u < |s.tasks| && Next(s, u) == Some(s') && ClientAllows(s, u);
    WokenTaskWaits(s, u);
    NextPhaseMoves(s, u, s');
    if u != t {
      OthersStay(s, u, s', t);
    }
  }

  lemma WaitStep(s: State, s': State, t: TaskId, n: nat, k: nat, rest: seq<Job>)
    requires CarefulInv(s) && CarefulSteps(s, s') && 0 < n && KeepsToPhase(s, t, n, k, rest)
    ensures KeepsToPhase(s', t, n, k, rest)
  {
    if Waits(s, t, k, rest) {
      StaysInWait(s, s', t, k, rest);
    } else if Returned(s.tasks[t], k) {
      EntersWait(s, s', t, n, k, rest);
    } else {
      CallStep(s, s', t, n, k);
    }
  }

  /** A task that arrives and then waits, arrive_and_wait being one example, does not get past that
      wait before the phase in which its arrival began is over, with all the arrivals that phase
      opened with, its own among them. */
  lemma WaitsForItsOwnPhase(run: seq<State>, a: nat, c: nat, t: TaskId, n: nat, rest: seq<Job>)
    requires IsRun(Init, CarefulSteps, run) && a < c < |run| && Calls(run[a], t, Arrive(n))
    requires t < |run[a + 1].tasks| && run[a].tasks[t].todo[1..] == [Wait] + rest == run[a + 1].tasks[t].todo
    requires t < |run[c].tasks| && run[c].tasks[t].todo == rest && InWait(run[c].tasks[t].pc) == None
    ensures Over(run[c], run[a].phase)
  {
    var k := run[a].phase;
    WaitTracked(run, a, c, t, n, rest);
    KeptFrom(run, a + 1, c, (s: State) => KeepsToPhase(s, t, n, k, rest));
    CarefulRunHasInv(run, c);
  }

  lemma WaitTracked(run: seq<State>, a: nat, c: nat, t: TaskId, n: nat, rest: seq<Job>)
    requires IsRun(Init, CarefulSteps, run) && a < c < |run| && Calls(run[a], t, Arrive(n))
    requires t < |run[a + 1].tasks| && run[a].tasks[t].todo[1..] == [Wait] + rest == run[a + 1].tasks[t].todo
    ensures WillWait(run[a + 1], t, n, run[a].phase, rest)
    ensures forall i :: a < i < c && KeepsToPhase(run[i], t, n, run[a].phase, rest) ==>
              KeepsToPhase(run[i + 1], t, n, run[a].phase, rest)
  {
    CarefulRunHasInv(run, a);
    CallBegins(run[a], run[a + 1], t, Arrive(n));
    forall i | a < i < c && KeepsToPhase(run[i], t, n, run[a].phase, rest)
      ensures KeepsToPhase(run[i + 1], t, n, run[a].phase, rest)
    {
      CarefulRunHasInv(run, i);
      WaitStep(run[i], run[i + 1], t, n, run[a].phase, rest);
    }
  }
}
