/** What each call on the counting semaphore does and answers, over whole runs. */
module SemaphoreCalls {
  import opened TaskSums
  import opened Runs
  import opened WaitProtocol
  import opened Semaphore
  import opened SemaphoreTheorems

  ghost predicate StepOf(s: State, s': State, t: TaskId) {
    t < |s.tasks| == |s.q.local| && exists weak: bool :: Next(s, t, weak) == Some(s')
  }

  predicate Calls(s: State, t: TaskId, job: Job) {
    t < |s.tasks| && s.tasks[t].pc == Ready && s.tasks[t].todo != [] && s.tasks[t].todo[0] == job
  }

  /** The run from a to b is one call of task t, from the step that begins it to the first state in
      which it has returned. */
  ghost predicate IsCall(run: seq<State>, a: nat, b: nat, t: TaskId, job: Job) {
    && a < b < |run| && Calls(run[a], t, job)
    && (forall i :: a < i <= b ==> t < |run[i].tasks| && run[i].tasks[t].todo == run[a].tasks[t].todo[1..])
    && (forall i :: a < i < b ==> run[i].tasks[t].pc != Ready)
    && run[b].tasks[t].pc == Ready
  }

  /** Where the call can be in between.  try_acquire never waits. */
  predicate Within(job: Job, pc: Pc) {
    match job
    case Acquire => pc == Enter(true) || (pc.Cas? && pc.blocking) || pc.Wait?
    case TryAcquire => pc == Enter(false) || (pc.Cas? && !pc.blocking)
    case Release(n) => pc == Resume(n) || pc == Waking
  }

  /** The counter before and after the last step of the call. */
  predicate Answers(job: Job, before: int, after: int) {
    match job
    case Acquire => before > 0 && after == before - 1
    case TryAcquire => if before > 0 then after == before - 1 else before == 0 == after
    case Release(_) => after == before
  }

  /** The first step of the call, which makes the update of release. */
  predicate Begins(job: Job, before: int, after: int, pc: Pc) {
    match job
    case Release(n) => after == before + n && pc == if n == 0 then Ready else Resume(n)
    case _ => after == before && Within(job, pc)
  }

  predicate Proceeds(job: Job, s: State, s': State, pc: Pc, pc': Pc) {
    && (if pc' == Ready then Answers(job, s.counter, s'.counter) else Within(job, pc') && s'.counter == s.counter)
    && (job.TryAcquire? && s.counter == 0 ==> pc' == Ready)
    && (job.Release? ==> Wakes(job.update, s, s', pc, pc'))
  }

  /** The one action of release that takes waiters takes the first `n`, or all. */
  predicate Wakes(n: nat, s: State, s': State, pc: Pc, pc': Pc) {
    if pc.Resume? then s'.q.popped == s.q.popped + Front(s.q.main, n) && pc' == Waking
    else s'.q.popped == s.q.popped && (pc' == Waking || pc' == Ready)
  }

  lemma OwnStep(s: State, t: TaskId, weak: bool, s': State, job: Job)
    requires t < |s.tasks| == |s.q.local| && Next(s, t, weak) == Some(s') && Within(job, s.tasks[t].pc)
    requires s.q.local[t] != [] ==> s.tasks[t].pc == Waking && s.q.local[t][0] != t
    requires 0 <= s.counter && (s.tasks[t].pc.Cas? ==> s.tasks[t].pc.current > 0)
    ensures |s'.tasks| == |s.tasks| && Proceeds(job, s, s', s.tasks[t].pc, s'.tasks[t].pc)
  {
  }

  lemma OthersStep(s: State, u: TaskId, weak: bool, s': State, t: TaskId)
    requires u < |s.tasks| == |s.q.local| && Next(s, u, weak) == Some(s') && t < |s.tasks| && t != u
    requires s.q.local[u] != [] ==>
               s.tasks[u].pc == Waking && var w := s.q.local[u][0]; w < |s.tasks| && s.tasks[w].pc == Wait(Parked)
    ensures |s'.tasks| == |s.tasks|
    ensures || s'.tasks[t] == s.tasks[t]
            || (s.tasks[t].pc == Wait(Parked) && s'.tasks[t] == s.tasks[t].(pc := Enter(true)))
  {
  }

  lemma WokenWaits(s: State, u: TaskId)
    requires Inv(s) && u < |s.tasks| && s.q.local[u] != []
    ensures s.tasks[u].pc == Waking && s.q.local[u][0] < |s.tasks| && s.tasks[s.q.local[u][0]].pc == Wait(Parked)
  {
    WakeKeepsInv(s.q, PhasesOf(s.tasks), u);
  }

  /** What a step may do to task t while its call is under way. */
  ghost predicate Advances(s: State, s': State, t: TaskId, job: Job) {
    t < |s.tasks| && Within(job, s.tasks[t].pc) ==>
      && |s'.tasks| == |s.tasks|
      && (s'.tasks[t].pc == Ready || Within(job, s'.tasks[t].pc))
      && (StepOf(s, s', t) ==> Proceeds(job, s, s', s.tasks[t].pc, s'.tasks[t].pc))
      && (s'.tasks[t].pc == Ready || (s'.tasks[t] != s.tasks[t] && !s.tasks[t].pc.Wait?) ==> StepOf(s, s', t))
  }

  lemma CallStep(s: State, s': State, t: TaskId, job: Job)
    requires Inv(s) && Steps(s, s')
    ensures Advances(s, s', t, job)
  {
    if t < |s.tasks| && Within(job, s.tasks[t].pc) {
      if StepOf(s, s', t) {
        var weak: bool :| Next(s, t, weak) == Some(s');
        if s.q.local[t] != [] {
          WokenWaits(s, t);
        }
        OwnStep(s, t, weak, s', job);
      } else {
        var u: TaskId, weak: bool :| u < |s.tasks| && Next(s, u, weak) == Some(s');
        if s.q.local[u] != [] {
          WokenWaits(s, u);
        }
        OthersStep(s, u, weak, s', t);
      }
    }
  }

  /** Only its own step begins a call. */
  lemma CallBegins(s: State, s': State, t: TaskId, job: Job)
    requires Inv(s) && Steps(s, s') && Calls(s, t, job)
    requires t < |s'.tasks| && s'.tasks[t].todo == s.tasks[t].todo[1..]
    ensures Begins(job, s.counter, s'.counter, s'.tasks[t].pc) && s'.q.popped == s.q.popped
  {
    var u: TaskId, weak: bool :| u < |s.tasks| && Next(s, u, weak) == Some(s');
    if s.q.local[u] != [] {
      WokenWaits(s, u);
    }
    if u != t {
      OthersStep(s, u, weak, s', t);
    }
  }

  /** The call from a to b with what its steps do; what follows needs no more of the run. */
  ghost predicate Tracked(run: seq<State>, a: nat, b: nat, t: TaskId, job: Job) {
    && IsCall(run, a, b, t, job)
    && t < |run[a + 1].tasks| && Begins(job, run[a].counter, run[a + 1].counter, run[a + 1].tasks[t].pc)
    && forall i :: a < i < b ==> Advances(run[i], run[i + 1], t, job)
  }

  lemma CallTracked(run: seq<State>, a: nat, b: nat, t: TaskId, job: Job)
    requires IsRun(Init, Steps, run) && IsCall(run, a, b, t, job)
    ensures Tracked(run, a, b, t, job)
  {
    InitHasInv(run[0]);
    StepsPreserveInv();
    InvariantHolds(Init, Steps, Inv, run);
    CallBegins(run[a], run[a + 1], t, job);
    forall i | a < i < b ensures Advances(run[i], run[i + 1], t, job) {
      CallStep(run[i], run[i + 1], t, job);
    }
  }

  lemma CallGoesOn(run: seq<State>, a: nat, b: nat, t: TaskId, job: Job)
    requires Tracked(run, a, b, t, job)
    ensures forall i :: a < i < b ==> Within(job, run[i].tasks[t].pc)
    ensures a + 1 == b <==> job == Release(0)
  {
    if a + 1 < b {
      KeptFrom(run, a + 1, b - 1, (s: State) => t < |s.tasks| && Within(job, s.tasks[t].pc));
    }
  }

  /** acquire and try_acquire in every run: their last step takes a permit, or is a try_acquire that
      finds the counter at 0 and leaves it there; no other step of theirs writes the counter, and
      try_acquire never waits. */
  lemma CallAnswered(run: seq<State>, a: nat, b: nat, t: TaskId, job: Job)
    requires IsRun(Init, Steps, run) && IsCall(run, a, b, t, job) && !job.Release?
    ensures StepOf(run[b - 1], run[b], t) && Answers(job, run[b - 1].counter, run[b].counter)
    ensures forall i :: a < i < b ==> Within(job, run[i].tasks[t].pc)
    ensures run[a + 1].counter == run[a].counter
    ensures forall i :: a < i < b - 1 && StepOf(run[i], run[i + 1], t) ==> run[i + 1].counter == run[i].counter
  {
    CallTracked(run, a, b, t, job);
    CallGoesOn(run, a, b, t, job);
    TrackedAnswers(run, a, b, t, job);
  }

  lemma TrackedAnswers(run: seq<State>, a: nat, b: nat, t: TaskId, job: Job)
    requires Tracked(run, a, b, t, job) && job != Release(0)
    ensures a + 1 < b && StepOf(run[b - 1], run[b], t) && Answers(job, run[b - 1].counter, run[b].counter)
    ensures forall i :: a < i < b - 1 && StepOf(run[i], run[i + 1], t) ==> run[i + 1].counter == run[i].counter
  {
    CallGoesOn(run, a, b, t, job);
    var i := b - 1;
    assert Advances(run[i], run[i + 1], t, job);
  }

  /** One of the loads of the call, plain or in a failed exchange, found no permit. */
  ghost predicate SawZero(run: seq<State>, a: nat, b: nat, t: TaskId) {
    exists i :: a < i < b < |run| && StepOf(run[i], run[i + 1], t) && run[i].counter == 0
  }

  /** try_acquire returns without a permit exactly if one of its own loads found the counter at 0:
      how many permits there are, others at work and spurious failures do not make it give up. */
  lemma TryFailsExactly(run: seq<State>, a: nat, b: nat, t: TaskId)
    requires IsRun(Init, Steps, run) && IsCall(run, a, b, t, TryAcquire)
    ensures a + 1 < b
    ensures run[b].counter == run[b - 1].counter <==> SawZero(run, a, b, t)
    ensures run[b].counter == run[b - 1].counter - 1 <==> !SawZero(run, a, b, t)
    ensures (forall i :: a < i < b ==> run[i].counter > 0) ==> run[b].counter == run[b - 1].counter - 1
  {
    CallTracked(run, a, b, t, TryAcquire);
    TrackedTry(run, a, b, t);
  }

  lemma TrackedTry(run: seq<State>, a: nat, b: nat, t: TaskId)
    requires Tracked(run, a, b, t, TryAcquire)
    ensures a + 1 < b
    ensures run[b].counter == run[b - 1].counter <==> SawZero(run, a, b, t)
    ensures run[b].counter == run[b - 1].counter - 1 <==> !SawZero(run, a, b, t)
  {
    CallGoesOn(run, a, b, t, TryAcquire);
    TrackedAnswers(run, a, b, t, TryAcquire);
    if run[b].counter == run[b - 1].counter {
      var i := b - 1;
      assert StepOf(run[i], run[i + 1], t);
    }
  }

  /** release(n) raises the counter by n, once and at its beginning; if n is not 0 one of its later
      steps takes the first n waiters, or all there are, and no other takes any. */
  lemma ReleaseWakes(run: seq<State>, a: nat, b: nat, t: TaskId, n: nat) returns (g: nat)
    requires IsRun(Init, Steps, run) && IsCall(run, a, b, t, Release(n))
    ensures run[a + 1].counter == run[a].counter + n
    ensures forall i :: a < i < b && StepOf(run[i], run[i + 1], t) ==> run[i + 1].counter == run[i].counter
    ensures n == 0 ==> b == a + 1
    ensures n > 0 ==>
              && a < g < b && StepOf(run[g], run[g + 1], t)
              && run[g + 1].q.popped == run[g].q.popped + Front(run[g].q.main, n)
              && forall i :: a < i < b && i != g && StepOf(run[i], run[i + 1], t) ==>
                   run[i + 1].q.popped == run[i].q.popped
  {
    CallTracked(run, a, b, t, Release(n));
    CallGoesOn(run, a, b, t, Release(n));
    g := a + 1;
    if n > 0 {
      g := LastResume(run, a, b, t, n, a + 1);
      TrackedAnswers(run, a, b, t, Release(n));
      PopsOnce(run, a, b, t, n, g);
    }
  }

  lemma {:induction false} LastResume(run: seq<State>, a: nat, b: nat, t: TaskId, n: nat, i: nat) returns (g: nat)
    requires Tracked(run, a, b, t, Release(n)) && a < i < b && run[i].tasks[t].pc == Resume(n)
    ensures i <= g && g + 1 < b && run[g].tasks[t].pc == Resume(n) && run[g + 1].tasks[t].pc == Waking
    ensures forall j :: i <= j <= g ==> run[j].tasks[t].pc == Resume(n)
    decreases b - i
  {
    CallGoesOn(run, a, b, t, Release(n));
    assert Advances(run[i], run[i + 1], t, Release(n));
    if run[i + 1].tasks[t].pc == Waking {
      g := i;
    } else {
      g := LastResume(run, a, b, t, n, i + 1);
    }
  }

  lemma PopsOnce(run: seq<State>, a: nat, b: nat, t: TaskId, n: nat, g: nat)
    requires Tracked(run, a, b, t, Release(n)) && a < g && g + 1 < b
    requires run[g].tasks[t].pc == Resume(n) && run[g + 1].tasks[t].pc == Waking
    requires forall j :: a < j <= g ==> run[j].tasks[t].pc == Resume(n)
    ensures StepOf(run[g], run[g + 1], t) && run[g + 1].q.popped == run[g].q.popped + Front(run[g].q.main, n)
    ensures forall i :: a < i < b && i != g && StepOf(run[i], run[i + 1], t) ==>
              run[i + 1].q.popped == run[i].q.popped
  {
    assert Advances(run[g], run[g + 1], t, Release(n));
    var p := (s: State) => t < |s.tasks| && (s.tasks[t].pc == Waking || s.tasks[t].pc == Ready);
    forall i | g + 1 <= i < b && p(run[i]) ensures p(run[i + 1]) {
      assert Advances(run[i], run[i + 1], t, Release(n));
      StaysWaking(run, a, b, t, n, i);
    }
    KeptFrom(run, g + 1, b, p);
  }

  lemma StaysWaking(run: seq<State>, a: nat, b: nat, t: TaskId, n: nat, i: nat)
    requires Tracked(run, a, b, t, Release(n)) && a < i < b && run[i].tasks[t].pc == Waking
    ensures t < |run[i + 1].tasks| && run[i + 1].tasks[t].pc in {Waking, Ready}
  {
    CallGoesOn(run, a, b, t, Release(n));
    assert Advances(run[i], run[i + 1], t, Release(n));
  }

  // Programs of tries

  function Tries(task: Task): int {
    |task.todo| + if task.pc == Ready then 0 else 1
  }

  predicate OnlyTries(task: Task) {
    && (task.pc == Ready || Within(TryAcquire, task.pc))
    && forall j :: 0 <= j < |task.todo| ==> task.todo[j] == TryAcquire
  }

  predicate AllOnlyTry(s: State) {
    forall t :: 0 <= t < |s.tasks| ==> OnlyTries(s.tasks[t])
  }

  /** The permits that are left when all the tries begun with are made but those that are left. */
  predicate TakenByTries(c: int, n: int, s: State) {
    var made := n - Sum(s.tasks, Tries);
    0 <= made && s.counter == if made <= c then c - made else 0
  }

  lemma TryStep(s: State, t: TaskId, weak: bool, s': State, c: int, n: int)
    requires Inv(s) && AllOnlyTry(s) && TakenByTries(c, n, s) && t < |s.tasks| && Next(s, t, weak) == Some(s')
    ensures AllOnlyTry(s') && TakenByTries(c, n, s')
  {
    assert OnlyTries(s.tasks[t]);
    SumUpdate(s.tasks, t, s'.tasks[t], Tries);
    OwnTry(s, t, weak, s');
  }

  lemma OwnTry(s: State, t: TaskId, weak: bool, s': State)
    requires t < |s.tasks| == |s.q.local| && s.q.local[t] == [] && Next(s, t, weak) == Some(s')
    requires OnlyTries(s.tasks[t]) && 0 <= s.counter && (s.tasks[t].pc.Cas? ==> s.tasks[t].pc.current > 0)
    ensures |s'.tasks| == |s.tasks| && s'.tasks == s.tasks[t := s'.tasks[t]] && OnlyTries(s'.tasks[t])
    ensures if Tries(s'.tasks[t]) == Tries(s.tasks[t]) then s'.counter == s.counter
            else Tries(s'.tasks[t]) == Tries(s.tasks[t]) - 1
                 && s'.counter == if s.counter > 0 then s.counter - 1 else 0
  {
  }

  /** Tasks that only ever try, n times in all, on a semaphore of c: exactly min(n, c) of the tries
      succeed, however they are interleaved, and nobody is left waiting. */
  lemma TriesTakeExactly(run: seq<State>)
    requires IsRun(Init, Steps, run) && AllOnlyTry(run[0]) && Stuck(run[|run| - 1])
    ensures var first, last := run[0], run[|run| - 1];
            var c, n := first.counter, Sum(first.tasks, Tries);
            && 0 <= c && 0 <= n && c - last.counter == Min(n, c)
            && forall t :: 0 <= t < |last.tasks| ==> Finished(last.tasks[t])
  {
    var first, last := run[0], run[|run| - 1];
    var c, n := first.counter, Sum(first.tasks, Tries);
    var inv := (s: State) => Inv(s) && AllOnlyTry(s) && TakenByTries(c, n, s);
    InitHasInv(first);
    SumNonNegative(first.tasks, Tries);
    forall s, s' | inv(s) && Steps(s, s') ensures inv(s') {
      var t: TaskId, weak: bool :| t < |s.tasks| && Next(s, t, weak) == Some(s');
      NextKeepsInv(s, t, weak);
      TryStep(s, t, weak, s', c, n);
    }
    InvariantHolds(Init, Steps, inv, run);
    StuckExactly(last);
    forall t | 0 <= t < |last.tasks| ensures Finished(last.tasks[t]) && Tries(last.tasks[t]) == 0 {
      assert OnlyTries(last.tasks[t]);
    }
    SumZero(last.tasks, Tries);
  }
}
