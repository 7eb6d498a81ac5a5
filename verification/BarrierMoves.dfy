/** Stretches of a run of the barrier in which one task gets through a call by itself. */
module BarrierMoves {
  import opened Runs
  import opened WaitProtocol
  import opened Barrier

  /** The state after letting the tasks of `schedule` step in turn. */
  function Exec(s: State, schedule: seq<TaskId>): Option<State>
    decreases |schedule|
  {
    if schedule == [] then Some(s)
    else if !Sized(s) || schedule[0] >= |s.tasks| then None
    else
      match Next(s, schedule[0])
      case None => None
      case Some(s') => Exec(s', schedule[1..])
  }

  lemma {:induction false} ExecAppend(s: State, first: seq<TaskId>, m: State, rest: seq<TaskId>)
    requires Exec(s, first) == Some(m)
    ensures Exec(s, first + rest) == Exec(m, rest)
    decreases |first|
  {
    if first == [] {
      assert first + rest == rest;
    } else {
      assert (first + rest)[1..] == first[1..] + rest;
      ExecAppend(Next(s, first[0]).value, first[1..], m, rest);
    }
  }

  lemma {:induction false} ExecIsRun(s: State, schedule: seq<TaskId>, last: State) returns (run: seq<State>)
    requires Exec(s, schedule) == Some(last)
    ensures 0 < |run| && run[0] == s && run[|run| - 1] == last
    ensures forall i :: 0 <= i < |run| - 1 ==> AnySteps(run[i], run[i + 1])
    decreases |schedule|
  {
    if schedule == [] {
      run := [s];
    } else {
      var s' := Next(s, schedule[0]).value;
      var rest := ExecIsRun(s', schedule[1..], last);
      assert AnySteps(s, s');
      run := [s] + rest;
    }
  }

  function At(s: State, t: TaskId, task: Task): State
    requires t < |s.tasks|
  {
    s.(tasks := s.tasks[t := task])
  }

  /** One more step of task t, from a state that differs from s in that task alone. */
  lemma Goes(start: State, schedule: seq<TaskId>, s: State, t: TaskId, task: Task, s': State, task': Task)
    returns (longer: seq<TaskId>)
    requires t < |s.tasks| && Sized(s) && s'.tasks == s.tasks
    requires Exec(start, schedule) == Some(At(s, t, task))
    requires Next(At(s, t, task), t) == Some(s'.(tasks := s.tasks[t := task][t := task']))
    ensures Exec(start, longer) == Some(At(s', t, task'))
  {
    assert s.tasks[t := task][t := task'] == s.tasks[t := task'];
    assert [t][1..] == [];
    assert Exec(At(s, t, task), [t]) == Exec(At(s', t, task'), []);
    ExecAppend(start, schedule, At(s, t, task), [t]);
    longer := schedule + [t];
  }

  lemma Begins(s: State, t: TaskId)
    requires t < |s.tasks|
    ensures Exec(s, []) == Some(At(s, t, s.tasks[t]))
  {
    assert s.tasks[t := s.tasks[t]] == s.tasks;
  }

  /** Waiting for a phase that is just over. */
  lemma PassesThrough(s: State, t: TaskId, todo: seq<Job>, k: nat) returns (schedule: seq<TaskId>)
    requires Sized(s) && t < |s.tasks| && s.tasks[t] == Task([Wait] + todo, Ready, Some(k)) && s.phase == k + 1
    ensures Exec(s, schedule) == Some(At(s, t, Task(todo, Ready, None)))
  {
    assert ([Wait] + todo)[1..] == todo;
    Begins(s, t);
    var testing, ready := Task(todo, Testing(k), None), Task(todo, Ready, None);
    schedule := Goes(s, [], s, t, s.tasks[t], s, testing);
    BytesDecide(k, s.phase);
    if IsPrevious(k, s.phase) {
      schedule := Goes(s, schedule, s, t, testing, s, ready);
    } else {
      var waiting := Task(todo, Waiting(k, FastPath), None);
      schedule := Goes(s, schedule, s, t, testing, s, waiting);
      schedule := Goes(s, schedule, s, t, waiting, s, ready);
    }
  }

  /** Arriving, with others still to come. */
  lemma Comes(s: State, t: TaskId, todo: seq<Job>) returns (schedule: seq<TaskId>)
    requires Sized(s) && t < |s.tasks| && s.tasks[t] == Task([Arrive(1)] + todo, Ready, None)
    requires s.expected != 1 && s.phase < |s.arrived|
    ensures Exec(s, schedule)
            == Some(At(s.(expected := s.expected - 1, arrived := s.arrived[s.phase := s.arrived[s.phase] + 1]),
                       t, Task(todo, Ready, Some(s.phase))))
  {
    assert ([Arrive(1)] + todo)[1..] == todo;
    Begins(s, t);
    var loaded := Task(todo, Loaded(1, s.phase), None);
    schedule := Goes(s, [], s, t, s.tasks[t], s, loaded);
    var s' := s.(expected := s.expected - 1, arrived := s.arrived[s.phase := s.arrived[s.phase] + 1]);
    schedule := Goes(s, schedule, s, t, loaded, s', Task(todo, Ready, Some(s.phase)));
  }

  /** Arriving as the last one: the count is used up. */
  function UsedUp(s: State): State
    requires s.phase < |s.arrived|
  {
    s.(expected := 0, arrived := s.arrived[s.phase := s.arrived[s.phase] + 1])
  }

  lemma ComesLast(s: State, t: TaskId, todo: seq<Job>) returns (schedule: seq<TaskId>)
    requires Sized(s) && t < |s.tasks| && s.tasks[t] == Task([Arrive(1)] + todo, Ready, None)
    requires s.expected == 1 && s.phase < |s.arrived|
    ensures Exec(s, schedule) == Some(At(UsedUp(s), t, Task(todo, Last(RunCompletion, s.phase), None)))
  {
    assert ([Arrive(1)] + todo)[1..] == todo;
    Begins(s, t);
    var loaded := Task(todo, Loaded(1, s.phase), None);
    schedule := Goes(s, [], s, t, s.tasks[t], s, loaded);
    schedule := Goes(s, schedule, s, t, loaded, UsedUp(s), Task(todo, Last(RunCompletion, s.phase), None));
  }

  /** The next phase, stored. */
  function NextPhase(s: State): State
    requires s.phase < |s.arrived|
  {
    s.(expected := s.initial, phase := s.phase + 1, arrived := UsedUp(s).arrived + [0], opens := s.opens + [s.initial],
       completions := s.completions + 1)
  }

  /** The last arriver runs the completion and reads the next count. */
  lemma Completes(s: State, t: TaskId, todo: seq<Job>) returns (schedule: seq<TaskId>)
    requires Sized(s) && t < |s.tasks| && s.tasks[t] == Task([Arrive(1)] + todo, Ready, None)
    requires s.expected == 1 && s.phase < |s.arrived|
    ensures Exec(s, schedule) == Some(At(UsedUp(s).(completions := s.completions + 1),
                                         t, Task(todo, Last(StoreExpected(s.initial), s.phase), None)))
  {
    var k, s1 := s.phase, UsedUp(s);
    schedule := ComesLast(s, t, todo);
    var s2 := s1.(completions := s.completions + 1);
    var t1, t2 := Task(todo, Last(RunCompletion, k), None), Task(todo, Last(LoadInitial, k), None);
    schedule := Goes(s, schedule, s1, t, t1, s2, t2);
    schedule := Goes(s, schedule, s2, t, t2, s2, Task(todo, Last(StoreExpected(s.initial), k), None));
  }

  /** ... and stores count and phase. */
  lemma Stores(s: State, t: TaskId, todo: seq<Job>) returns (schedule: seq<TaskId>)
    requires Sized(s) && t < |s.tasks| && s.tasks[t] == Task([Arrive(1)] + todo, Ready, None)
    requires s.expected == 1 && s.phase < |s.arrived|
    ensures Exec(s, schedule) == Some(At(NextPhase(s), t, Task(todo, Last(Notify, s.phase), None)))
  {
    var k, s2 := s.phase, UsedUp(s).(completions := s.completions + 1);
    schedule := Completes(s, t, todo);
    var t3, t4 := Task(todo, Last(StoreExpected(s.initial), k), None), Task(todo, Last(StorePhase, k), None);
    var s4 := s2.(expected := s.initial);
    schedule := Goes(s, schedule, s2, t, t3, s4, t4);
    schedule := Goes(s, schedule, s4, t, t4, NextPhase(s), Task(todo, Last(Notify, k), None));
  }

  predicate NobodyQueued(q: Waiters) {
    q.main == [] && q.owner == None && forall r :: 0 <= r < |q.local| ==> q.local[r] == []
  }

  lemma NobodyToTake(q: Waiters, r: TaskId)
    requires NobodyQueued(q) && r < |q.local|
    ensures TakeAll(q, r) == Some(q)
  {
    assert Front(q.main, 0) == q.main == Back(q.main, 0) && q.popped + q.main == q.popped;
    assert q.local[r := []] == q.local;
  }

  /** The whole call of the last arriver, nobody waiting. */
  lemma Closes(s: State, t: TaskId, todo: seq<Job>) returns (schedule: seq<TaskId>)
    requires Sized(s) && t < |s.tasks| && s.tasks[t] == Task([Arrive(1)] + todo, Ready, None)
    requires s.expected == 1 && s.phase < |s.arrived| && NobodyQueued(s.q)
    ensures Exec(s, schedule) == Some(At(NextPhase(s), t, Task(todo, Ready, Some(s.phase))))
  {
    var k, s' := s.phase, NextPhase(s);
    schedule := Stores(s, t, todo);
    NobodyToTake(s.q, t);
    var t1, t2 := Task(todo, Last(Notify, k), None), Task(todo, Last(Waking, k), None);
    schedule := Goes(s, schedule, s', t, t1, s', t2);
    schedule := Goes(s, schedule, s', t, t2, s', Task(todo, Ready, Some(k)));
  }

  function Queue(q: Waiters, t: TaskId): Waiters {
    q.(main := q.main + [t], pushed := q.pushed + [t])
  }

  /** Waiting for the open phase. */
  lemma Sleeps(s: State, t: TaskId, todo: seq<Job>) returns (schedule: seq<TaskId>)
    requires Sized(s) && t < |s.tasks| && s.tasks[t] == Task([Wait] + todo, Ready, Some(s.phase)) && s.q.owner == None
    ensures Exec(s, schedule) == Some(At(s.(q := Queue(s.q, t)), t, Task(todo, Waiting(s.phase, Parked), None)))
  {
    var k := s.phase;
    assert ([Wait] + todo)[1..] == todo;
    Begins(s, t);
    var t1, t2 := Task(todo, Testing(k), None), Task(todo, Waiting(k, FastPath), None);
    schedule := Goes(s, [], s, t, s.tasks[t], s, t1);
    schedule := Goes(s, schedule, s, t, t1, s, t2);
    var t3, t4 := Task(todo, Waiting(k, Locking), None), Task(todo, Waiting(k, Recheck), None);
    var t5 := Task(todo, Waiting(k, Pushing), None);
    schedule := Goes(s, schedule, s, t, t2, s, t3);
    var s4 := s.(q := s.q.(owner := Some(t)));
    schedule := Goes(s, schedule, s, t, t3, s4, t4);
    schedule := Goes(s, schedule, s4, t, t4, s4, t5);
    schedule := Goes(s, schedule, s4, t, t5, s.(q := Queue(s.q, t)), Task(todo, Waiting(k, Parked), None));
  }

  // Everybody but one or two

  /** Everybody is between two rounds. */
  predicate Open(s: State) {
    && Sized(s) && NobodyQueued(s.q) && s.phase < |s.arrived|
    && forall t :: 0 <= t < |s.tasks| ==>
         && s.tasks[t].pc == Ready && s.tasks[t].token == None
         && (s.tasks[t].todo == [] || s.tasks[t].todo[0] == Arrive(1))
  }

  /** About to arrive. */
  predicate AtStart(task: Task) {
    task.pc == Ready && task.token == None && task.todo != [] && task.todo[0] == Arrive(1)
  }

  /** The tasks that can arrive, without `a` and `b`. */
  predicate Comer(s: State, i: nat, a: TaskId, b: TaskId)
    requires i < |s.tasks|
  {
    i != a && i != b && AtStart(s.tasks[i])
  }

  function Comers(s: State, j: nat, a: TaskId, b: TaskId): nat
    requires j <= |s.tasks|
  {
    if j == 0 then 0 else Comers(s, j - 1, a, b) + if Comer(s, j - 1, a, b) then 1 else 0
  }

  /** How many of the first j tasks are neither. */
  function Others(j: nat, a: TaskId, b: TaskId): int {
    j - (if a < j then 1 else 0) - (if b < j && b != a then 1 else 0)
  }

  lemma {:induction false} CountComers(s: State, j: nat, a: TaskId, b: TaskId)
    requires j <= |s.tasks|
    ensures Comers(s, j, a, b) <= Others(j, a, b)
    ensures (forall i :: 0 <= i < j && i != a && i != b ==> AtStart(s.tasks[i])) ==>
              Comers(s, j, a, b) == Others(j, a, b)
  {
    if j > 0 {
      CountComers(s, j - 1, a, b);
    }
  }

  lemma {:induction false} FewerComers(s: State, i: nat, j: nat, a: TaskId, b: TaskId)
    requires i <= j <= |s.tasks|
    ensures Comers(s, i, a, b) <= Comers(s, j, a, b)
    decreases j
  {
    if i < j {
      FewerComers(s, i, j - 1, a, b);
    }
  }

  /** Of the first j tasks those that can have arrived, except `a` and `b`. */
  predicate Came(s: State, s': State, j: nat, a: TaskId, b: TaskId)
    requires s.phase < |s.arrived| && j <= |s.tasks|
  {
    var c := Comers(s, j, a, b);
    && |s'.tasks| == |s.tasks|
    && s' == s.(expected := s.expected - c, arrived := s.arrived[s.phase := s.arrived[s.phase] + c], tasks := s'.tasks)
    && forall i :: 0 <= i < |s.tasks| ==>
         s'.tasks[i] == if i < j && Comer(s, i, a, b) then Task(s.tasks[i].todo[1..], Ready, Some(s.phase))
                        else s.tasks[i]
  }

  lemma NextComes(s: State, m: State, j: nat, a: TaskId, b: TaskId) returns (more: seq<TaskId>, s': State)
    requires Sized(s) && s.phase < |s.arrived| && j < |s.tasks| && Came(s, m, j, a, b) && Comer(s, j, a, b)
    requires Comers(s, j, a, b) + 1 < s.expected
    ensures Exec(m, more) == Some(s') && Came(s, s', j + 1, a, b)
  {
    var todo, c := s.tasks[j].todo[1..], Comers(s, j, a, b);
    assert s.tasks[j].todo == [Arrive(1)] + todo;
    assert m.arrived[m.phase := m.arrived[m.phase] + 1] == s.arrived[s.phase := s.arrived[s.phase] + c + 1];
    more := Comes(m, j, todo);
    s' := At(m.(expected := m.expected - 1, arrived := s.arrived[s.phase := s.arrived[s.phase] + c + 1]),
             j, Task(todo, Ready, Some(m.phase)));
  }

  lemma {:induction false} OthersCome(s: State, j: nat, a: TaskId, b: TaskId) returns (schedule: seq<TaskId>, s': State)
    requires Sized(s) && s.phase < |s.arrived| && j <= |s.tasks| && Comers(s, |s.tasks|, a, b) < s.expected
    ensures Exec(s, schedule) == Some(s') && Came(s, s', j, a, b)
  {
    if j == 0 {
      schedule, s' := [], s;
      assert s.arrived[s.phase := s.arrived[s.phase] + 0] == s.arrived;
    } else {
      schedule, s' := OthersCome(s, j - 1, a, b);
      if Comer(s, j - 1, a, b) {
        var m := s';
        FewerComers(s, j, |s.tasks|, a, b);
        var more, last := NextComes(s, m, j - 1, a, b);
        ExecAppend(s, schedule, m, more);
        schedule, s' := schedule + more, last;
      }
    }
  }

  // Everybody

  /** Of the first j tasks those that have arrived have come through. */
  predicate Passed(s: State, s': State, j: nat) {
    && |s'.tasks| == |s.tasks| && s' == s.(tasks := s'.tasks)
    && forall i :: 0 <= i < |s.tasks| ==>
         s'.tasks[i] == if i < j && s.tasks[i].token.Some? && s.tasks[i].todo != []
                        then Task(s.tasks[i].todo[1..], Ready, None) else s.tasks[i]
  }

  /** Whoever has a token is about to wait, and its phase is just over. */
  predicate CanPass(s: State) {
    && Sized(s)
    && forall t :: 0 <= t < |s.tasks| && s.tasks[t].token.Some? ==>
         && s.tasks[t].pc == Ready && s.tasks[t].token.value + 1 == s.phase
         && s.tasks[t].todo != [] && s.tasks[t].todo[0] == Wait
  }

  lemma {:induction false} AllPass(s: State, j: nat) returns (schedule: seq<TaskId>, s': State)
    requires CanPass(s) && j <= |s.tasks|
    ensures Exec(s, schedule) == Some(s') && Passed(s, s', j)
  {
    if j == 0 {
      schedule, s' := [], s;
    } else {
      var before, m := AllPass(s, j - 1);
      schedule, s' := before, m;
      if s.tasks[j - 1].token.Some? {
        var todo := s.tasks[j - 1].todo[1..];
        assert s.tasks[j - 1].todo == [Wait] + todo;
        var more := PassesThrough(m, j - 1, todo, s.tasks[j - 1].token.value);
        s' := At(m, j - 1, Task(todo, Ready, None));
        ExecAppend(s, before, m, more);
        schedule := before + more;
      }
    }
  }

  /** Of the first j tasks those that have arrived have fallen asleep. */
  predicate Slept(s: State, s': State, j: nat) {
    && |s'.tasks| == |s.tasks| && s' == s.(q := s'.q, tasks := s'.tasks)
    && s'.q.owner == None && s'.q.local == s.q.local
    && forall i :: 0 <= i < |s.tasks| ==>
         s'.tasks[i] == if i < j && s.tasks[i].token.Some? && s.tasks[i].todo != []
                        then Task(s.tasks[i].todo[1..], Waiting(s.phase, Parked), None) else s.tasks[i]
  }

  /** Whoever has a token is about to wait, and its phase is open. */
  predicate MustWait(s: State) {
    && Sized(s) && s.q.owner == None
    && forall t :: 0 <= t < |s.tasks| && s.tasks[t].token.Some? ==>
         && s.tasks[t].pc == Ready && s.tasks[t].token.value == s.phase
         && s.tasks[t].todo != [] && s.tasks[t].todo[0] == Wait
  }

  lemma {:induction false} AllSleep(s: State, j: nat) returns (schedule: seq<TaskId>, s': State)
    requires MustWait(s) && j <= |s.tasks|
    ensures Exec(s, schedule) == Some(s') && Slept(s, s', j)
  {
    if j == 0 {
      schedule, s' := [], s;
    } else {
      var before, m := AllSleep(s, j - 1);
      schedule, s' := before, m;
      if s.tasks[j - 1].token.Some? {
        var todo := s.tasks[j - 1].todo[1..];
        assert s.tasks[j - 1].todo == [Wait] + todo;
        var more := Sleeps(m, j - 1, todo);
        s' := At(m.(q := Queue(m.q, j - 1)), j - 1, Task(todo, Waiting(m.phase, Parked), None));
        ExecAppend(s, before, m, more);
        schedule := before + more;
      }
    }
  }
}
