/** Which programs are safe from stranded writers?  Exactly those in which no task that calls
    lock() has company: the other tasks make no calls at all.  For every other choice of
    programs there is a run that ends with a writer asleep on a free mutex. */
module SharedMutexPrograms {
  import opened Runs
  import opened WaitProtocol
  import opened SharedMutex
  import opened SharedMutexTheorems
  import opened SharedMutexDrain

  predicate WillLock(task: Task) {
    Write in task.todo || task.pc == TryLock(true) || task.pc.WriteWait?
  }

  predicate Busy(task: Task) {
    task.todo != [] || task.pc != Ready
  }

  /** What a caller can check beforehand: a task that locks exclusively works alone. */
  predicate NoCompany(tasks: seq<Task>) {
    forall t, u :: 0 <= t < |tasks| && 0 <= u < |tasks| && t != u ==> !(WillLock(tasks[t]) && Busy(tasks[u]))
  }

  // Without company nobody is late

  lemma StepKeepsNoCompany(s: State, t: TaskId, weak: bool, s': State)
    requires Inv(s) && t < |s.tasks| && Next(s, t, weak) == Some(s')
    requires NoCompany(s.tasks) && NoneLate(s)
    ensures NoCompany(s'.tasks) && NoneLate(s')
  {
    WokenTaskWaits(s, t);
    ActorStaysInProgram(s, t, weak, s');
    forall u: TaskId | u < |s.tasks|
      ensures WillLock(s'.tasks[u]) ==> WillLock(s.tasks[u])
      ensures Busy(s'.tasks[u]) ==> Busy(s.tasks[u])
      ensures !s'.tasks[u].late
    {
      if u != t {
        OthersStay(s, t, weak, s', u);
        OthersKeepProgram(s, t, weak, s', u);
      } else if s'.tasks[t].late {
        WriterEffect(s, t, weak, s');
        var z :| 0 <= z < |s.tasks| && s.tasks[z].pc == StoreZero;
        assert WillLock(s.tasks[t]) && Busy(s.tasks[z]);
      }
    }
  }

  lemma ActorStaysInProgram(s: State, t: TaskId, weak: bool, s': State)
    requires Sized(s) && t < |s.tasks| && WokenOk(s, t) && Next(s, t, weak) == Some(s')
    ensures |s'.tasks| == |s.tasks|
    ensures WillLock(s'.tasks[t]) ==> WillLock(s.tasks[t])
    ensures Busy(s'.tasks[t]) ==> Busy(s.tasks[t])
  {
  }

  lemma OthersKeepProgram(s: State, t: TaskId, weak: bool, s': State, u: TaskId)
    requires Sized(s) && t < |s.tasks| && WokenOk(s, t) && Next(s, t, weak) == Some(s')
    requires u < |s.tasks| == |s'.tasks| && u != t
    ensures s'.tasks[u].todo == s.tasks[u].todo
  {
  }

  lemma NobodyLate(run: seq<State>, i: nat)
    requires IsRun(Init, Steps, run) && NoCompany(run[0].tasks) && i < |run|
    ensures Inv(run[i]) && NoneLate(run[i])
  {
    var inv := (s: State) =>
      Inv(s) && NoCompany(s.tasks) && NoneLate(s);
    InitHasInv(run[0]);
    forall s, s' | inv(s) && Steps(s, s') ensures inv(s') {
      var t: TaskId, weak: bool :| t < |s.tasks| && Next(s, t, weak) == Some(s');
      NextKeepsInv(s, t, weak, s');
      StepKeepsNoCompany(s, t, weak, s');
    }
    InvariantHolds(Init, Steps, inv, run);
  }

  // With company somebody can be

  /** The state after letting the tasks of `schedule` step in turn. */
  function Exec(s: State, schedule: seq<TaskId>): Option<State>
    decreases |schedule|
  {
    if schedule == [] then Some(s)
    else if !Sized(s) || schedule[0] >= |s.tasks| then None
    else
      match Next(s, schedule[0], false)
      case None => None
      case Some(s') => Exec(s', schedule[1..])
  }

  lemma {:induction false} ExecAppend(s: State, first: seq<TaskId>, m: State, rest: seq<TaskId>)
    requires Exec(s, first) == Some(m)
    ensures Exec(s, first + rest) == Exec(m, rest)
    decreases |first|
  {
    if first == [] {
      assert first + rest == rest;
    } else {
      assert (first + rest)[1..] == first[1..] + rest;
      ExecAppend(Next(s, first[0], false).value, first[1..], m, rest);
    }
  }

  lemma {:induction false} ExecIsRun(s: State, schedule: seq<TaskId>, last: State) returns (run: seq<State>)
    requires Exec(s, schedule) == Some(last)
    ensures 0 < |run| && run[0] == s && run[|run| - 1] == last
    ensures forall i :: 0 <= i < |run| - 1 ==> Steps(run[i], run[i + 1])
    decreases |schedule|
  {
    if schedule == [] {
      run := [s];
    } else {
      var s' := Next(s, schedule[0], false).value;
      var rest := ExecIsRun(s', schedule[1..], last);
      assert Steps(s, s');
      run := [s] + rest;
    }
  }

  predicate IdleQueue(q: Waiters) {
    q.main == [] && q.owner == None && forall r :: 0 <= r < |q.local| ==> q.local[r] == []
  }

  /** Nobody owns the mutex, waits for it or is inside a call. */
  predicate Quiet(s: State) {
    && Sized(s) && s.state == 0 && IdleQueue(s.writers) && IdleQueue(s.readers)
    && forall t :: 0 <= t < |s.tasks| ==> s.tasks[t].pc == Ready && !s.tasks[t].late
  }

  function With(s: State, state: int, t: TaskId, todo: seq<Job>, pc: Pc): State
    requires t < |s.tasks|
  {
    s.(state := state, tasks := s.tasks[t := Task(todo, pc, false)])
  }

  lemma WithGoto(s: State, t: TaskId, todo: seq<Job>, pc: Pc, state: int, pc': Pc, state': int)
    requires t < |s.tasks|
    ensures Goto(With(s, state, t, todo, pc), t, pc').(state := state') == With(s, state', t, todo, pc')
  {
  }

  lemma IdleTake(q: Waiters, r: TaskId, n: nat)
    requires IdleQueue(q) && r < |q.local|
    ensures Take(q, r, n) == Some(q)
  {
    assert q.local[r := []] == q.local;
    assert q.popped + [] == q.popped;
  }

  /** One step of task `t` that changes only the word and its program counter. */
  lemma ExecStep(s: State, t: TaskId, todo: seq<Job>, pc: Pc, state: int, pc': Pc, state': int,
                 rest: seq<TaskId>, last: State)
    requires t < |s.tasks| && Sized(s)
    requires Next(With(s, state, t, todo, pc), t, false)
             == Some(Goto(With(s, state, t, todo, pc), t, pc').(state := state'))
    requires Exec(With(s, state', t, todo, pc'), rest) == Some(last)
    ensures Exec(With(s, state, t, todo, pc), [t] + rest) == Some(last)
  {
    WithGoto(s, t, todo, pc, state, pc', state');
    assert ([t] + rest)[1..] == rest;
  }

  /** A task alone gets hold of the mutex and into the tail of its unlock. */
  lemma WriterReachesPop(s: State, t: TaskId, rest: seq<Job>, blocking: bool)
    requires Quiet(s) && t < |s.tasks|
    ensures Exec(With(s, 0, t, rest, TryLock(blocking)), [t, t]) == Some(With(s, WRITER_LOCKED, t, rest, PopWriter))
  {
    var last := With(s, WRITER_LOCKED, t, rest, PopWriter);
    assert Exec(last, []) == Some(last);
    ExecStep(s, t, rest, Writing, WRITER_LOCKED, PopWriter, WRITER_LOCKED, [], last);
    ExecStep(s, t, rest, TryLock(blocking), 0, Writing, WRITER_LOCKED, [t], last);
  }

  lemma ReaderReachesPop(s: State, t: TaskId, rest: seq<Job>, blocking: bool)
    requires Quiet(s) && t < |s.tasks|
    ensures Exec(With(s, 0, t, rest, Load(blocking)), [t, t, t, t, t])
            == Some(With(s, WRITER_LOCKED, t, rest, PopWriter))
  {
    var last := With(s, WRITER_LOCKED, t, rest, PopWriter);
    assert Exec(last, []) == Some(last);
    ExecStep(s, t, rest, InTransition, TRANSITION, PopWriter, WRITER_LOCKED, [], last);
    ExecStep(s, t, rest, Drop(1), 1, InTransition, TRANSITION, [t], last);
    ExecStep(s, t, rest, Reading, 1, Drop(1), 1, [t, t], last);
    ExecStep(s, t, rest, ShareCas(0, blocking), 0, Reading, 1, [t, t, t], last);
    ExecStep(s, t, rest, Load(blocking), 0, ShareCas(0, blocking), 0, [t, t, t, t], last);
  }

  lemma ReachesPop(s: State, t: TaskId) returns (schedule: seq<TaskId>)
    requires Quiet(s) && t < |s.tasks| && s.tasks[t].todo != []
    ensures Exec(s, schedule) == Some(With(s, WRITER_LOCKED, t, s.tasks[t].todo[1..], PopWriter))
  {
    var rest, job := s.tasks[t].todo[1..], s.tasks[t].todo[0];
    if job == Write || job == TryWrite {
      WriterReachesPop(s, t, rest, job == Write);
      schedule := [t, t];
    } else {
      ReaderReachesPop(s, t, rest, job == Read);
      schedule := [t, t, t, t, t];
    }
    var begun := With(s, 0, t, rest, FirstAction(job));
    assert Next(s, t, false) == Some(begun);
    ExecAppend(s, [t], begun, schedule);
    schedule := [t] + schedule;
  }

  /** A task alone completes its next job and leaves the mutex as it found it. */
  lemma JobAlone(s: State, t: TaskId) returns (schedule: seq<TaskId>)
    requires Quiet(s) && t < |s.tasks| && s.tasks[t].todo != []
    ensures Exec(s, schedule) == Some(With(s, 0, t, s.tasks[t].todo[1..], Ready))
  {
    var rest := s.tasks[t].todo[1..];
    var toPop := ReachesPop(s, t);
    var last := With(s, 0, t, rest, Ready);
    IdleTake(s.writers, t, 1);
    IdleTake(s.readers, t, |s.readers.main|);
    assert Exec(last, []) == Some(last);
    ExecStep(s, t, rest, Waking, 0, Ready, 0, [], last);
    ExecStep(s, t, rest, Broadcast, 0, Waking, 0, [t], last);
    ExecStep(s, t, rest, StoreZero, WRITER_LOCKED, Broadcast, 0, [t, t], last);
    ExecStep(s, t, rest, PopWriter, WRITER_LOCKED, StoreZero, WRITER_LOCKED, [t, t, t], last);
    schedule := toPop + [t, t, t, t];
    ExecAppend(s, toPop, With(s, WRITER_LOCKED, t, rest, PopWriter), [t, t, t, t]);
  }

  /** ... and so the first k of them. */
  lemma {:induction false} JobsAlone(s: State, t: TaskId, k: nat) returns (schedule: seq<TaskId>, s': State)
    requires Quiet(s) && t < |s.tasks| && k <= |s.tasks[t].todo|
    ensures Exec(s, schedule) == Some(s') && Quiet(s')
    ensures s'.tasks == s.tasks[t := s.tasks[t].(todo := s.tasks[t].todo[k..])]
    decreases k
  {
    if k == 0 {
      schedule, s' := [], s;
    } else {
      var first := JobAlone(s, t);
      var m := With(s, 0, t, s.tasks[t].todo[1..], Ready);
      var rest, last := JobsAlone(m, t, k - 1);
      ExecAppend(s, first, m, rest);
      schedule, s' := first + rest, last;
    }
  }

  /** All tasks below `n` other than `t` and `u` complete their programs, one after another. */
  lemma {:induction false} OthersAlone(s: State, t: TaskId, u: TaskId, n: nat)
    returns (schedule: seq<TaskId>, s': State)
    requires Quiet(s) && n <= |s.tasks|
    ensures Exec(s, schedule) == Some(s') && Quiet(s') && |s'.tasks| == |s.tasks|
    ensures forall x :: 0 <= x < |s.tasks| ==>
              s'.tasks[x].todo == if x < n && x != t && x != u then [] else s.tasks[x].todo
  {
    if n == 0 {
      schedule, s' := [], s;
    } else {
      var first, m := OthersAlone(s, t, u, n - 1);
      if n - 1 == t || n - 1 == u {
        schedule, s' := first, m;
      } else {
        var rest, last := JobsAlone(m, n - 1, |m.tasks[n - 1].todo|);
        ExecAppend(s, first, m, rest);
        schedule, s' := first + rest, last;
      }
    }
  }

  function Two(s: State, state: int, q: Waiters, t: TaskId, a: Task, u: TaskId, b: Task): State
    requires t < |s.tasks| && u < |s.tasks|
  {
    State(state, q, s.readers, s.tasks[t := a][u := b])
  }

  lemma TwoStep(s: State, state: int, q: Waiters, t: TaskId, a: Task, u: TaskId, b: Task,
                state': int, q': Waiters, a': Task, b': Task, who: TaskId,
                rest: seq<TaskId>, last: State)
    requires t < |s.tasks| && u < |s.tasks| && t != u && |s.tasks| == |q.local| == |s.readers.local|
    requires (who == t && b' == b) || (who == u && a' == a)
    requires Next(Two(s, state, q, t, a, u, b), who, false)
             == Some(State(state', q', s.readers, s.tasks[t := a][u := b][who := if who == t then a' else b']))
    requires Exec(Two(s, state', q', t, a', u, b'), rest) == Some(last)
    ensures Exec(Two(s, state, q, t, a, u, b), [who] + rest) == Some(last)
  {
    assert s.tasks[t := a][u := b][who := if who == t then a' else b'] == s.tasks[t := a'][u := b'];
    assert ([who] + rest)[1..] == rest;
  }

  /** The state in which writer `t` sleeps on a free mutex. */
  function Stranded(s: State, t: TaskId, u: TaskId): State
    requires t < |s.tasks| && u < |s.tasks| && s.tasks[t].todo != []
  {
    var q := s.writers.(main := [t], pushed := s.writers.pushed + [t]);
    Two(s, 0, q, t, Task(s.tasks[t].todo[1..], WriteWait(Parked), true), u, Task([], Ready, false))
  }

  function Locked(s: State, t: TaskId): Waiters {
    s.writers.(owner := Some(t))
  }

  /** The writer tries and fails, and gets as far as the queue's lock. */
  lemma WriterFails(s: State, t: TaskId, u: TaskId, todo: seq<Job>, b: Task, rest: seq<TaskId>, last: State)
    requires Quiet(s) && t < |s.tasks| && u < |s.tasks| && t != u && s.tasks[t].todo == [Write] + todo
    requires Exec(Two(s, WRITER_LOCKED, s.writers, t, Task(todo, WriteWait(Locking), false), u, b), rest) == Some(last)
    ensures Exec(Two(s, WRITER_LOCKED, s.writers, t, s.tasks[t], u, b), [t, t, t] + rest) == Some(last)
  {
    var q := s.writers;
    var trying, waiting := Task(todo, TryLock(true), false), Task(todo, WriteWait(FastPath), false);
    var locking := Task(todo, WriteWait(Locking), false);
    assert s.tasks[t].todo[1..] == todo;
    TwoStep(s, WRITER_LOCKED, q, t, waiting, u, b, WRITER_LOCKED, q, locking, b, t, rest, last);
    TwoStep(s, WRITER_LOCKED, q, t, trying, u, b, WRITER_LOCKED, q, waiting, b, t, [t] + rest, last);
    TwoStep(s, WRITER_LOCKED, q, t, s.tasks[t], u, b, WRITER_LOCKED, q, trying, b, t, [t] + ([t] + rest), last);
    assert [t] + ([t] + ([t] + rest)) == [t, t, t] + rest;
  }

  /** The releaser pops nothing, and then the writer's re-check fails. */
  lemma WriterLate(s: State, t: TaskId, u: TaskId, todo: seq<Job>, rest: seq<TaskId>, last: State)
    requires Quiet(s) && t < |s.tasks| && u < |s.tasks| && t != u
    requires Exec(Two(s, WRITER_LOCKED, Locked(s, t), t, Task(todo, WriteWait(Pushing), true),
                      u, Task([], StoreZero, false)), rest) == Some(last)
    ensures Exec(Two(s, WRITER_LOCKED, s.writers, t, Task(todo, WriteWait(Locking), false),
                     u, Task([], PopWriter, false)), [u, t, t] + rest) == Some(last)
  {
    var q, held := s.writers, Locked(s, t);
    var locking, checking := Task(todo, WriteWait(Locking), false), Task(todo, WriteWait(Recheck), false);
    var popping, storing := Task([], PopWriter, false), Task([], StoreZero, false);
    IdleTake(q, u, 1);
    assert Two(s, WRITER_LOCKED, held, t, checking, u, storing).tasks[u].pc == StoreZero;
    TwoStep(s, WRITER_LOCKED, held, t, checking, u, storing,
            WRITER_LOCKED, held, Task(todo, WriteWait(Pushing), true), storing, t, rest, last);
    TwoStep(s, WRITER_LOCKED, q, t, locking, u, storing,
            WRITER_LOCKED, held, checking, storing, t, [t] + rest, last);
    TwoStep(s, WRITER_LOCKED, q, t, locking, u, popping,
            WRITER_LOCKED, q, locking, storing, u, [t] + ([t] + rest), last);
    assert [u] + ([t] + ([t] + rest)) == [u, t, t] + rest;
  }

  /** The releaser stores 0, the writer goes to sleep, the releaser finds no readers. */
  /** The releaser stores 0, wakes nobody, and is done. */
  lemma ReleaserLeaves(s: State, t: TaskId, u: TaskId)
    requires Quiet(s) && t < |s.tasks| && u < |s.tasks| && t != u && s.tasks[t].todo != []
    ensures Exec(Two(s, 0, Stranded(s, t, u).writers, t, Task(s.tasks[t].todo[1..], WriteWait(Parked), true),
                     u, Task([], Broadcast, false)), [u, u]) == Some(Stranded(s, t, u))
  {
    var last := Stranded(s, t, u);
    var q, parked := last.writers, Task(s.tasks[t].todo[1..], WriteWait(Parked), true);
    var sending, waking, done := Task([], Broadcast, false), Task([], Waking, false), Task([], Ready, false);
    IdleTake(s.readers, u, |s.readers.main|);
    assert Exec(last, []) == Some(last);
    TwoStep(s, 0, q, t, parked, u, waking, 0, q, parked, done, u, [], last);
    TwoStep(s, 0, q, t, parked, u, sending, 0, q, parked, waking, u, [u], last);
  }

  lemma WriterSleeps(s: State, t: TaskId, u: TaskId)
    requires Quiet(s) && t < |s.tasks| && u < |s.tasks| && t != u && s.tasks[t].todo != []
    ensures Exec(Two(s, WRITER_LOCKED, Locked(s, t), t, Task(s.tasks[t].todo[1..], WriteWait(Pushing), true),
                     u, Task([], StoreZero, false)), [u, t, u, u]) == Some(Stranded(s, t, u))
  {
    var last := Stranded(s, t, u);
    var q, held := last.writers, Locked(s, t);
    var todo := s.tasks[t].todo[1..];
    var pushing, parked := Task(todo, WriteWait(Pushing), true), Task(todo, WriteWait(Parked), true);
    var storing, sending := Task([], StoreZero, false), Task([], Broadcast, false);
    assert s.writers.main + [t] == [t];
    ReleaserLeaves(s, t, u);
    TwoStep(s, 0, held, t, pushing, u, sending, 0, q, parked, sending, t, [u, u], last);
    TwoStep(s, WRITER_LOCKED, held, t, pushing, u, storing, 0, held, pushing, sending, u, [t, u, u], last);
  }

  lemma Strands(s: State, t: TaskId, u: TaskId) returns (schedule: seq<TaskId>)
    requires Quiet(s) && t < |s.tasks| && u < |s.tasks| && t != u
    requires s.tasks[t].todo != [] && s.tasks[t].todo[0] == Write && |s.tasks[u].todo| == 1
    ensures Exec(s, schedule) == Some(Stranded(s, t, u))
  {
    var last, todo := Stranded(s, t, u), s.tasks[t].todo[1..];
    var popping := Task([], PopWriter, false);
    assert s.tasks[t].todo == [Write] + todo;
    WriterSleeps(s, t, u);
    WriterLate(s, t, u, todo, [u, t, u, u], last);
    WriterFails(s, t, u, todo, popping, [u, t, t] + [u, t, u, u], last);
    var tail := [t, t, t] + ([u, t, t] + [u, t, u, u]);
    var toPop := ReachesPop(s, u);
    var begun := With(s, WRITER_LOCKED, u, [], PopWriter);
    assert s.tasks[u].todo[1..] == [];
    assert s.tasks[t := s.tasks[t]][u := popping] == s.tasks[u := popping];
    assert begun == Two(s, WRITER_LOCKED, s.writers, t, s.tasks[t], u, popping);
    schedule := toPop + tail;
    ExecAppend(s, toPop, begun, tail);
  }

  /** Everybody else finishes, `t` stops before a call of lock(), `u` before its last call. */
  lemma Prepares(s: State, t: TaskId, u: TaskId) returns (schedule: seq<TaskId>, s': State)
    requires Quiet(s) && t < |s.tasks| && u < |s.tasks| && t != u
    requires Write in s.tasks[t].todo && s.tasks[u].todo != []
    ensures Exec(s, schedule) == Some(s') && Quiet(s') && |s'.tasks| == |s.tasks|
    ensures s'.tasks[t].todo != [] && s'.tasks[t].todo[0] == Write && |s'.tasks[u].todo| == 1
    ensures forall x :: 0 <= x < |s'.tasks| && x != t && x != u ==> Finished(s'.tasks[x])
  {
    var i :| 0 <= i < |s.tasks[t].todo| && s.tasks[t].todo[i] == Write;
    var others, s1 := OthersAlone(s, t, u, |s.tasks|);
    var before, s2 := JobsAlone(s1, t, i);
    var company, s3 := JobsAlone(s2, u, |s2.tasks[u].todo| - 1);
    ExecAppend(s, others, s1, before);
    ExecAppend(s, others + before, s2, company);
    schedule, s' := others + before + company, s3;
  }

  lemma StrandedIsStuck(s: State, t: TaskId, u: TaskId)
    requires t < |s.tasks| && u < |s.tasks| && t != u && s.tasks[t].todo != []
    requires forall x :: 0 <= x < |s.tasks| && x != t && x != u ==> Finished(s.tasks[x])
    requires Inv(Stranded(s, t, u)) && IdleQueue(s.readers)
    ensures Stuck(Stranded(s, t, u)) && !AllFinished(Stranded(s, t, u))
  {
    var last := Stranded(s, t, u);
    forall x: TaskId | x < |last.tasks| && x != t ensures Finished(last.tasks[x]) {
      assert x != u ==> last.tasks[x] == s.tasks[x];
    }
    assert last.tasks[t].pc == WriteWait(Parked) && !Finished(last.tasks[t]);
    StuckExactly(last);
  }

  /** Any programs with a locking task that has company can end with that task asleep. */
  lemma CompanyCanStrand(s: State, t: TaskId, u: TaskId) returns (run: seq<State>)
    requires Init(s) && t < |s.tasks| && u < |s.tasks| && t != u
    requires Write in s.tasks[t].todo && s.tasks[u].todo != []
    ensures IsRun(Init, Steps, run) && run[0] == s
    ensures Stuck(run[|run| - 1]) && !AllFinished(run[|run| - 1])
  {
    var first, m := Prepares(s, t, u);
    var rest := Strands(m, t, u);
    ExecAppend(s, first, m, rest);
    run := ExecIsRun(s, first + rest, Stranded(m, t, u));
    RunHasInv(run, |run| - 1);
    StrandedIsStuck(m, t, u);
  }

  /** The exact condition on the programs: every run drains just when no task that locks
      exclusively has company. */
  lemma DrainsExactlyWithoutCompany(s: State)
    requires Init(s)
    ensures NoCompany(s.tasks) <==>
      forall run :: IsRun(Init, Steps, run) && run[0] == s && Stuck(run[|run| - 1]) ==> AllFinished(run[|run| - 1])
  {
    if NoCompany(s.tasks) {
      forall run | IsRun(Init, Steps, run) && run[0] == s && Stuck(run[|run| - 1])
        ensures AllFinished(run[|run| - 1])
      {
        NobodyLate(run, |run| - 1);
        StuckExactly(run[|run| - 1]);
      }
    } else {
      var t, u :| 0 <= t < |s.tasks| && 0 <= u < |s.tasks| && t != u && WillLock(s.tasks[t]) && Busy(s.tasks[u]);
      var run := CompanyCanStrand(s, t, u);
    }
  }

  /** And whatever the programs: a final state is drained just when nobody in it was late,
      so a run in which no writer's re-check is late drains. */
  lemma RunsWithoutLateRecheckDrain(run: seq<State>)
    requires IsRun(Init, Steps, run) && Stuck(run[|run| - 1])
    ensures AllFinished(run[|run| - 1]) <==> NoneLate(run[|run| - 1])
    ensures (forall i :: 0 <= i < |run| ==> NoneLate(run[i])) ==> AllFinished(run[|run| - 1])
  {
    RunHasInv(run, |run| - 1);
    StuckExactly(run[|run| - 1]);
  }
}
