/** What the reader-writer mutex promises over whole runs. */
module SharedMutexTheorems {
  import opened TaskSums
  import opened Runs
  import opened WaitProtocol
  import opened SharedMutex

  ghost predicate Steps(s: State, s': State) {
    Sized(s) && exists t: TaskId, weak: bool :: t < |s.tasks| && Next(s, t, weak) == Some(s')
  }

  /** Steps in which a compare-exchange fails only when the values differ. */
  ghost predicate StrongSteps(s: State, s': State) {
    Sized(s) && exists t: TaskId :: t < |s.tasks| && Next(s, t, false) == Some(s')
  }

  lemma StepsPreserveInv()
    ensures Preserved(Steps, Inv) && Preserved(StrongSteps, Inv)
  {
    forall s, s' | Inv(s) && Steps(s, s') ensures Inv(s') {
      var t: TaskId, weak: bool :| t < |s.tasks| && Next(s, t, weak) == Some(s');
      NextKeepsInv(s, t, weak, s');
    }
    forall s, s' | Inv(s) && StrongSteps(s, s') ensures Inv(s') {
      var t: TaskId :| t < |s.tasks| && Next(s, t, false) == Some(s');
      NextKeepsInv(s, t, false, s');
    }
  }

  lemma RunHasInv(run: seq<State>, i: nat)
    requires IsRun(Init, Steps, run) && i < |run|
    ensures Inv(run[i])
  {
    InitHasInv(run[0]);
    StepsPreserveInv();
    InvariantHolds(Init, Steps, Inv, run);
  }

  // Ownership

  /** The three encodings, each in both directions: the word is n >= 0 just when n tasks have
      a share and nobody has more, WRITER_LOCKED just when one task has the exclusive token,
      TRANSITION just when one last reader is on its way out. */
  lemma WordCountsOwners(run: seq<State>, i: nat, n: nat)
    requires IsRun(Init, Steps, run) && i < |run|
    ensures var s := run[i];
            var shares, tokens, moving := Sum(s.tasks, Share), Sum(s.tasks, Exclusive), Sum(s.tasks, Moving);
            && (s.state == n <==> shares == n && tokens == 0 && moving == 0)
            && (s.state == WRITER_LOCKED <==> tokens == 1)
            && (s.state == WRITER_LOCKED ==> shares == 0 && moving == 0)
            && (s.state == TRANSITION <==> moving == 1)
            && (s.state == TRANSITION ==> shares == 0 && tokens == 0)
  {
    RunHasInv(run, i);
  }

  predicate Owns(pc: Pc) {
    pc == Writing || pc == Reading
  }

  /** A writer shares the mutex with nobody, and the assertions of lock, unlock and
      unlock_shared hold whenever they are evaluated. */
  lemma MutualExclusion(run: seq<State>, i: nat, t: TaskId, u: TaskId)
    requires IsRun(Init, Steps, run) && i < |run| && t < |run[i].tasks| && u < |run[i].tasks|
    ensures run[i].tasks[t].pc == Writing && Owns(run[i].tasks[u].pc) ==> t == u
    ensures run[i].tasks[t].pc == Writing ==> run[i].state == WRITER_LOCKED
    ensures run[i].tasks[t].pc == Reading || run[i].tasks[t].pc.Drop? ==> run[i].state >= 1
  {
    RunHasInv(run, i);
    OwnershipShows(run[i], t);
    OwnershipShows(run[i], u);
    if run[i].tasks[t].pc == Writing && t != u {
      OneToken(run[i], t, u);
    }
  }

  // Direct handoff

  predicate InLock(pc: Pc) {
    pc == TryLock(true) || pc.WriteWait?
  }

  /** The lock has been taken for `w`, which has not returned from lock() yet: by its own
      re-check, or by a releaser that popped it. */
  predicate Granted(s: State, w: TaskId)
    requires w < |s.tasks|
  {
    || s.tasks[w].pc == WriteWait(SelfResume)
    || (s.tasks[w].pc == WriteWait(Parked) && w !in s.writers.main)
  }

  lemma NoStoreWhileGranted(s: State, w: TaskId, t: TaskId)
    requires Inv(s) && w < |s.tasks| && t < |s.tasks| && Granted(s, w)
    ensures s.state == WRITER_LOCKED && s.tasks[t].pc != StoreZero
  {
    OwnershipShows(s, w);
    if s.tasks[w].pc == WriteWait(SelfResume) {
      if t != w {
        OneToken(s, w, t);
      }
    } else {
      ParkedIsListed(s.writers, WritePhases(s.tasks), w);
      var r: nat :| r < |s.writers.local| && w in s.writers.local[r];
      OwnershipShows(s, r);
      if t != r {
        OneToken(s, r, t);
      }
    }
  }

  /** Only the store of 0 takes the word away from WRITER_LOCKED. */
  lemma WordKept(s: State, t: TaskId, weak: bool, s': State)
    requires Inv(s) && t < |s.tasks| && Next(s, t, weak) == Some(s')
    requires s.state == WRITER_LOCKED && s.tasks[t].pc != StoreZero
    ensures s'.state == WRITER_LOCKED
  {
    OwnershipShows(s, t);
  }

  lemma MainEffect(s: State, t: TaskId, weak: bool, s': State)
    requires Sized(s) && t < |s.tasks| && Next(s, t, weak) == Some(s')
    ensures s'.writers.main ==
            match s.tasks[t].pc
            case WriteWait(phase) => if phase == Pushing then s.writers.main + [t] else s.writers.main
            case PopWriter => s.writers.main[Min(1, |s.writers.main|)..]
            case _ => s.writers.main
  {
  }

  lemma OwnStep(s: State, w: TaskId, s': State)
    requires Sized(s) && w < |s.tasks| && InLock(s.tasks[w].pc) && Next(s, w, false) == Some(s')
    ensures |s'.tasks| == |s.tasks|
    ensures s.tasks[w].pc == WriteWait(SelfResume) ==> s'.tasks[w].pc == Writing
    ensures s.tasks[w].pc != WriteWait(SelfResume) ==>
              || (InLock(s'.tasks[w].pc) && !Granted(s', w))
              || (s.state == 0 && s'.state == WRITER_LOCKED
                  && (s'.tasks[w].pc == WriteWait(SelfResume) || s'.tasks[w].pc == Writing))
  {
  }

  /** Inside lock(), ownership arrives once and in one of two ways.  Before it does, a step
      leaves the writer without it, or is the writer's own exchange of 0, or is the pop that
      finds it at the front of the queue.  From then on the word stays WRITER_LOCKED, so that
      no try by anybody succeeds, until the writer is resumed as the owner. */
  lemma GrantedOnce(s: State, t: TaskId, weak: bool, s': State, w: TaskId)
    requires Inv(s) && t < |s.tasks| && w < |s.tasks| && Next(s, t, weak) == Some(s')
    requires InLock(s.tasks[w].pc)
    ensures |s'.tasks| == |s.tasks|
    ensures Granted(s, w) ==>
              && s.state == WRITER_LOCKED && s'.state == WRITER_LOCKED
              && (Granted(s', w) || s'.tasks[w].pc == Writing)
    ensures !Granted(s, w) ==>
              || (InLock(s'.tasks[w].pc) && !Granted(s', w))
              || (t == w && s.state == 0 && s'.state == WRITER_LOCKED
                  && (Granted(s', w) || s'.tasks[w].pc == Writing))
              || (t != w && s.tasks[t].pc == PopWriter && s.writers.main != [] && s.writers.main[0] == w
                  && s.state == WRITER_LOCKED && s'.state == WRITER_LOCKED && Granted(s', w))
  {
    WokenTaskWaits(s, t);
    MainEffect(s, t, weak, s');
    if Granted(s, w) {
      NoStoreWhileGranted(s, w, t);
      WordKept(s, t, weak, s');
    }
    if t == w {
      OwnStep(s, w, s');
    } else {
      OthersStay(s, t, weak, s', w);
      OwnershipShows(s, t);
      if s.tasks[w].pc == WriteWait(Parked) {
        HandedOffLeavesMain(s, t, weak, s', w);
      }
    }
  }

  /** In lock(), or just past it. */
  predicate Locks(s: State, w: TaskId) {
    w < |s.tasks| && (InLock(s.tasks[w].pc) || s.tasks[w].pc == Writing)
  }

  predicate Has(s: State, w: TaskId) {
    w < |s.tasks| && (Granted(s, w) || s.tasks[w].pc == Writing)
  }

  /** The step is the writer's own exchange of 0, or the pop of the writer from the front. */
  ghost predicate Grants(s: State, s': State, w: TaskId) {
    && !Has(s, w) && Has(s', w) && s'.state == WRITER_LOCKED
    && (|| s.state == 0
        || (s.state == WRITER_LOCKED && s.writers.main != [] && s.writers.main[0] == w && SomeAt(s.tasks, PopWriter)))
  }

  /** The run from a to b is one call of lock() by `w`, in it from the start, through at the end. */
  ghost predicate IsLockCall(run: seq<State>, a: nat, b: nat, w: TaskId) {
    && a < b < |run|
    && (forall i :: a <= i <= b ==> Locks(run[i], w))
    && (forall i :: a <= i < b ==> run[i].tasks[w].pc != Writing)
    && run[b].tasks[w].pc == Writing
  }

  lemma LockStep(run: seq<State>, i: nat, w: TaskId)
    requires IsRun(Init, Steps, run) && i + 1 < |run| && Locks(run[i], w) && run[i].tasks[w].pc != Writing
    ensures Has(run[i], w) ==> Has(run[i + 1], w) && run[i].state == WRITER_LOCKED == run[i + 1].state
    ensures !Has(run[i], w) && Has(run[i + 1], w) ==> Grants(run[i], run[i + 1], w)
  {
    RunHasInv(run, i);
    var s, s' := run[i], run[i + 1];
    var t: TaskId, weak: bool :| t < |s.tasks| && Next(s, t, weak) == Some(s');
    GrantedOnce(s, t, weak, s', w);
  }

  predicate Holding(s: State, w: TaskId) {
    Has(s, w) && s.state == WRITER_LOCKED
  }

  /** Once granted, it stays so to the end of the call. */
  lemma StaysGranted(run: seq<State>, a: nat, i: nat, b: nat, w: TaskId)
    requires IsRun(Init, Steps, run) && IsLockCall(run, a, b, w) && a <= i <= b && Holding(run[i], w)
    ensures forall j :: i <= j <= b ==> Holding(run[j], w)
  {
    forall j: nat | i <= j < b && Holding(run[j], w) ensures Holding(run[j + 1], w) {
      LockStep(run, j, w);
    }
    KeptFrom(run, i, b, (s: State) => Holding(s, w));
  }

  /** The last of the states from a on up to which the writer has nothing. */
  lemma {:induction false} LastWithout(run: seq<State>, a: nat, b: nat, w: TaskId) returns (g: nat)
    requires a < b < |run| && !Has(run[a], w) && Has(run[b], w)
    ensures a <= g < b && !Has(run[g], w) && Has(run[g + 1], w)
    ensures forall i :: a <= i <= g ==> !Has(run[i], w)
    decreases b - a
  {
    if Has(run[a + 1], w) {
      g := a;
    } else {
      g := LastWithout(run, a + 1, b, w);
    }
  }

  /** One call of lock() is granted in exactly one step: without ownership up to there, the word
      WRITER_LOCKED and ownership its own from there on. */
  lemma LockGrantedOnce(run: seq<State>, a: nat, b: nat, w: TaskId) returns (g: nat)
    requires IsRun(Init, Steps, run) && IsLockCall(run, a, b, w) && !Has(run[a], w)
    ensures a <= g < b && Grants(run[g], run[g + 1], w)
    ensures forall i :: a <= i <= b ==> (Has(run[i], w) <==> g < i)
    ensures forall i :: g < i <= b ==> run[i].state == WRITER_LOCKED
  {
    g := LastWithout(run, a, b, w);
    LockStep(run, g, w);
    StaysGranted(run, a, g + 1, b, w);
    assert forall i :: g < i <= b ==> Holding(run[i], w);
  }

  /** A call of lock() begins without ownership. */
  lemma CallBeginsWithout(s: State, w: TaskId)
    requires w < |s.tasks| && s.tasks[w].pc == TryLock(true)
    ensures Locks(s, w) && !Has(s, w)
  {
  }

  /** So a call is granted once from its first exchange to its return. */
  lemma WholeCallGrantedOnce(run: seq<State>, a: nat, b: nat, w: TaskId) returns (g: nat)
    requires IsRun(Init, Steps, run) && IsLockCall(run, a, b, w) && run[a].tasks[w].pc == TryLock(true)
    ensures a <= g < b && Grants(run[g], run[g + 1], w)
    ensures forall i :: a <= i <= b ==> (Has(run[i], w) <==> g < i)
    ensures forall i :: g < i <= b ==> run[i].state == WRITER_LOCKED
  {
    CallBeginsWithout(run[a], w);
    g := LockGrantedOnce(run, a, b, w);
  }

  /** The writer resumed by a releaser had been granted the lock. */
  lemma HandedOffLeavesMain(s: State, t: TaskId, weak: bool, s': State, w: TaskId)
    requires QueuesOk(s) && t < |s.tasks| && w < |s.tasks| && t != w && Next(s, t, weak) == Some(s')
    requires s.tasks[w].pc == WriteWait(Parked)
    ensures |s'.tasks| == |s.tasks|
    ensures s'.tasks[w].pc == Writing ==> w !in s.writers.main
    ensures s'.tasks[w].pc == Writing || s'.tasks[w] == s.tasks[w]
  {
    WokenTaskWaits(s, t);
    OthersStay(s, t, weak, s', w);
    if s'.tasks[w].pc == Writing {
      ExactlyOneList(s.writers, WritePhases(s.tasks), w);
      assert w in s.writers.local[t];
    }
  }
}
