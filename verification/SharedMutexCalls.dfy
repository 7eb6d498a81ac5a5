/** What each call on the reader-writer mutex answers, over whole runs: from the step that begins
    it to the one in which the caller has it back, or holds the mutex. */
module SharedMutexCalls {
  import opened Runs
  import opened WaitProtocol
  import opened SharedMutex
  import opened SharedMutexTheorems

  ghost predicate StepOf(s: State, s': State, t: TaskId) {
    Sized(s) && t < |s.tasks| && exists weak: bool :: Next(s, t, weak) == Some(s')
  }

  /** Between two calls, or holding what the last one took. */
  predicate Rests(pc: Pc) {
    pc == Ready || pc == Writing || pc == Reading
  }

  predicate Calls(s: State, t: TaskId, job: Job) {
    t < |s.tasks| && s.tasks[t].pc == Ready && s.tasks[t].todo != [] && s.tasks[t].todo[0] == job
  }

  /** The run from a to b is one locking call of task t: it is begun in the first step, and b is
      the first state in which the task is back. */
  ghost predicate IsCall(run: seq<State>, a: nat, b: nat, t: TaskId, job: Job) {
    && a < b < |run| && Calls(run[a], t, job)
    && (forall i :: a < i <= b ==> t < |run[i].tasks| && run[i].tasks[t].todo == run[a].tasks[t].todo[1..])
    && (forall i :: a < i < b ==> !Rests(run[i].tasks[t].pc))
    && Rests(run[b].tasks[t].pc)
  }

  /** Where the call can be in between.  A try is never in either queue. */
  predicate Within(job: Job, pc: Pc) {
    match job
    case Write => pc == TryLock(true) || pc.WriteWait?
    case TryWrite => pc == TryLock(false)
    case Read => pc == Load(true) || (pc.ShareCas? && pc.blocking) || pc.ReadWait?
    case TryRead => pc == Load(false) || (pc.ShareCas? && !pc.blocking)
  }

  /** What the caller has after the call, given the word before and after its last step. */
  predicate Answers(job: Job, before: int, after: int, pc: Pc) {
    match job
    case Write => pc == Writing && before in {0, WRITER_LOCKED} && after == WRITER_LOCKED
    case TryWrite =>
      if before == 0 then pc == Writing && after == WRITER_LOCKED else pc == Ready && after == before
    case Read => pc == Reading && before >= 0 && after == before + 1
    case TryRead => if before >= 0 then pc == Reading && after == before + 1 else pc == Ready && after == before
  }

  /** The step leaves the call going on, or ends it with its answer. */
  predicate Proceeds(job: Job, before: int, after: int, pc: Pc) {
    if Rests(pc) then Answers(job, before, after, pc)
    else Within(job, pc) && (job.Write? || after == before)
  }

  lemma OwnStep(s: State, t: TaskId, weak: bool, s': State, job: Job)
    requires Sized(s) && t < |s.tasks| && Next(s, t, weak) == Some(s')
    requires Within(job, s.tasks[t].pc) && Shows(s.state, s.tasks[t]) && LoadedOk(s.tasks[t].pc)
    ensures |s'.tasks| == |s.tasks| && Proceeds(job, s.state, s'.state, s'.tasks[t].pc)
    ensures job.TryRead? && s.state < 0 ==> s'.tasks[t].pc == Ready
    ensures job.TryWrite? ==> Rests(s'.tasks[t].pc)
  {
  }

  lemma OthersStep(s: State, u: TaskId, weak: bool, s': State, t: TaskId, job: Job)
    requires Sized(s) && u < |s.tasks| && WokenOk(s, u) && Next(s, u, weak) == Some(s')
    requires t < |s.tasks| && t != u && Within(job, s.tasks[t].pc) && Shows(s.state, s.tasks[u])
    ensures |s'.tasks| == |s.tasks|
    ensures var pc := s'.tasks[t].pc; if Rests(pc) then Answers(job, s.state, s'.state, pc) else Within(job, pc)
    ensures job.TryRead? || job.TryWrite? ==> s'.tasks[t] == s.tasks[t]
  {
    OthersStay(s, u, weak, s', t);
  }

  lemma ActorShows(s: State, u: TaskId)
    requires Inv(s) && u < |s.tasks|
    ensures WokenOk(s, u) && Shows(s.state, s.tasks[u]) && LoadedOk(s.tasks[u].pc)
  {
    WokenTaskWaits(s, u);
    OwnershipShows(s, u);
  }

  /** What a step may do to task t while its call is under way. */
  ghost predicate Advances(s: State, s': State, t: TaskId, job: Job) {
    t < |s.tasks| && Within(job, s.tasks[t].pc) ==>
      && |s'.tasks| == |s.tasks|
      && (var pc := s'.tasks[t].pc; if Rests(pc) then Answers(job, s.state, s'.state, pc) else Within(job, pc))
      && (StepOf(s, s', t) ==>
            && Proceeds(job, s.state, s'.state, s'.tasks[t].pc)
            && (job.TryRead? && s.state < 0 ==> s'.tasks[t].pc == Ready)
            && (job.TryWrite? ==> Rests(s'.tasks[t].pc)))
      && ((job.TryRead? || job.TryWrite?) && s'.tasks[t] != s.tasks[t] ==> StepOf(s, s', t))
  }

  lemma CallStep(s: State, s': State, t: TaskId, job: Job)
    requires Inv(s) && Steps(s, s')
    ensures Advances(s, s', t, job)
  {
    if t < |s.tasks| && Within(job, s.tasks[t].pc) {
      if StepOf(s, s', t) {
        var weak: bool :| Next(s, t, weak) == Some(s');
        ActorShows(s, t);
        OwnStep(s, t, weak, s', job);
      } else {
        var u: TaskId, weak: bool :| u < |s.tasks| && Next(s, u, weak) == Some(s');
        ActorShows(s, u);
        OthersStep(s, u, weak, s', t, job);
      }
    }
  }

  /** The call from a to b with what its steps do; what follows needs no more of the run. */
  ghost predicate Tracked(run: seq<State>, a: nat, b: nat, t: TaskId, job: Job) {
    && IsCall(run, a, b, t, job)
    && t < |run[a + 1].tasks| && Within(job, run[a + 1].tasks[t].pc) && run[a + 1].state == run[a].state
    && forall i :: a < i < b ==> Advances(run[i], run[i + 1], t, job)
  }

  lemma CallTracked(run: seq<State>, a: nat, b: nat, t: TaskId, job: Job)
    requires IsRun(Init, Steps, run) && IsCall(run, a, b, t, job)
    ensures Tracked(run, a, b, t, job)
  {
    RunHasInv(run, a);
    CallBegins(run[a], run[a + 1], t, job);
    forall i | a < i < b ensures Advances(run[i], run[i + 1], t, job) {
      RunHasInv(run, i);
      CallStep(run[i], run[i + 1], t, job);
    }
  }

  /** Only its own step begins a call. */
  lemma CallBegins(s: State, s': State, t: TaskId, job: Job)
    requires Inv(s) && Steps(s, s') && Calls(s, t, job)
    requires t < |s'.tasks| && s'.tasks[t].todo == s.tasks[t].todo[1..]
    ensures Within(job, s'.tasks[t].pc) && s'.state == s.state
  {
    var u: TaskId, weak: bool :| u < |s.tasks| && Next(s, u, weak) == Some(s');
    ActorShows(s, u);
    if u != t {
      OthersStay(s, u, weak, s', t);
    }
  }

  lemma CallGoesOn(run: seq<State>, a: nat, b: nat, t: TaskId, job: Job)
    requires Tracked(run, a, b, t, job)
    ensures a + 1 < b && forall i :: a < i < b ==> Within(job, run[i].tasks[t].pc)
  {
    KeptFrom(run, a + 1, b - 1, (s: State) => t < |s.tasks| && Within(job, s.tasks[t].pc));
  }

  /** Every call in every run.  lock ends with the exclusive lock and lock_shared with a share, one
      more than the word said.  try_lock and try_lock_shared suspend nobody, and their answer is
      yes, with the lock or the share, exactly if the word was 0, or not negative, when they looked
      last, which is their last step.  Until its last step a call other than lock only reads the
      word. */
  lemma CallAnswered(run: seq<State>, a: nat, b: nat, t: TaskId, job: Job)
    requires IsRun(Init, Steps, run) && IsCall(run, a, b, t, job)
    ensures Answers(job, run[b - 1].state, run[b].state, run[b].tasks[t].pc)
    ensures forall i :: a < i < b ==> Within(job, run[i].tasks[t].pc)
    ensures job.TryRead? || job.TryWrite? ==> StepOf(run[b - 1], run[b], t)
    ensures !job.Write? ==>
              forall i :: a < i < b - 1 && StepOf(run[i], run[i + 1], t) ==> run[i + 1].state == run[i].state
  {
    CallTracked(run, a, b, t, job);
    CallGoesOn(run, a, b, t, job);
    TrackedAnswers(run, a, b, t, job);
  }

  lemma TrackedAnswers(run: seq<State>, a: nat, b: nat, t: TaskId, job: Job)
    requires Tracked(run, a, b, t, job)
    ensures Answers(job, run[b - 1].state, run[b].state, run[b].tasks[t].pc)
    ensures job.TryRead? || job.TryWrite? ==> StepOf(run[b - 1], run[b], t)
    ensures !job.Write? ==>
              forall i :: a < i < b - 1 && StepOf(run[i], run[i + 1], t) ==> run[i + 1].state == run[i].state
  {
    CallGoesOn(run, a, b, t, job);
    var i := b - 1;
    assert Advances(run[i], run[i + 1], t, job);
  }

  /** One of the loads of the call, plain or in a failed exchange, found the word negative. */
  ghost predicate SawNegative(run: seq<State>, a: nat, b: nat, t: TaskId) {
    exists i :: a < i < b < |run| && StepOf(run[i], run[i + 1], t) && run[i].state < 0
  }

  /** try_lock_shared says no exactly if one of its own loads found the word negative: readers
      about it, and spurious failures of its exchange, do not make it give up. */
  lemma TryReadFailsExactly(run: seq<State>, a: nat, b: nat, t: TaskId)
    requires IsRun(Init, Steps, run) && IsCall(run, a, b, t, TryRead)
    ensures run[b].tasks[t].pc == Ready <==> SawNegative(run, a, b, t)
    ensures run[b].tasks[t].pc == Reading <==> !SawNegative(run, a, b, t)
    ensures (forall i :: a < i < b ==> run[i].state >= 0) ==> run[b].tasks[t].pc == Reading
    ensures (forall i :: a < i < b ==> run[i].state < 0) ==> run[b].tasks[t].pc == Ready
  {
    CallTracked(run, a, b, t, TryRead);
    TrackedTryRead(run, a, b, t);
    TrackedAnswers(run, a, b, t, TryRead);
  }

  lemma TrackedTryRead(run: seq<State>, a: nat, b: nat, t: TaskId)
    requires Tracked(run, a, b, t, TryRead)
    ensures a + 1 < b
    ensures run[b].tasks[t].pc == Ready <==> SawNegative(run, a, b, t)
    ensures run[b].tasks[t].pc == Reading <==> !SawNegative(run, a, b, t)
  {
    CallGoesOn(run, a, b, t, TryRead);
    TrackedAnswers(run, a, b, t, TryRead);
    if run[b].tasks[t].pc == Ready {
      var i := b - 1;
      assert StepOf(run[i], run[i + 1], t);
    }
  }

  /** try_lock makes one exchange, its last step, and says yes exactly if that found 0. */
  lemma TryWriteSucceedsExactly(run: seq<State>, a: nat, b: nat, t: TaskId)
    requires IsRun(Init, Steps, run) && IsCall(run, a, b, t, TryWrite)
    ensures StepOf(run[b - 1], run[b], t)
    ensures forall i :: a < i < b - 1 ==> !StepOf(run[i], run[i + 1], t)
    ensures run[b].tasks[t].pc == Writing <==> run[b - 1].state == 0
    ensures run[b].tasks[t].pc == Ready <==> run[b - 1].state != 0
  {
    CallTracked(run, a, b, t, TryWrite);
    CallGoesOn(run, a, b, t, TryWrite);
    TrackedAnswers(run, a, b, t, TryWrite);
  }
}
