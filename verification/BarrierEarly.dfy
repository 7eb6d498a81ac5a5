/** How a waiter leaves a phase early: it is woken by the announcement of the phase before, and
    wait does not look again.  The ordinary loop of arrive and wait is enough for it. */
module BarrierEarly {
  import opened Runs
  import opened WaitProtocol
  import opened Barrier
  import opened BarrierLoops
  import opened BarrierMoves

  predicate ArriveFirst(s: State) {
    forall t :: 0 <= t < |s.tasks| ==> s.tasks[t].todo != [] && s.tasks[t].todo[0] == Arrive(1)
  }

  predicate TwoRounds(todo: seq<Job>) {
    |todo| >= 4 && todo[..4] == [Arrive(1), Wait, Arrive(1), Wait]
  }

  /** What two tasks of a barrier of all of them can be up to. */
  ghost predicate Pair(s: State, a: TaskId, b: TaskId) {
    && Init(s) && ArriveFirst(s) && 2 <= |s.tasks| == s.expected
    && a < |s.tasks| && b < |s.tasks| && a != b && TwoRounds(s.tasks[a].todo)
  }

  lemma StartIsOpen(s: State)
    requires Init(s) && ArriveFirst(s) && s.expected == |s.tasks|
    ensures Open(s)
  {
  }

  /** Phase 0 is over and stored by `b`, and nobody has been woken; the others are about to wait. */
  predicate JustStored(s: State, s': State, b: TaskId) {
    var n := |s.tasks|;
    && |s'.tasks| == n
    && s' == s.(expected := n, phase := 1, arrived := [n, 0], opens := [n, n], completions := 1, tasks := s'.tasks)
    && forall i :: 0 <= i < n && s.tasks[i].todo != [] ==>
         s'.tasks[i] == if i == b then Task(s.tasks[i].todo[1..], Last(Notify, 0), None)
                        else Task(s.tasks[i].todo[1..], Ready, Some(0))
  }

  lemma ReachesStored(s: State, a: TaskId, b: TaskId) returns (schedule: seq<TaskId>, s': State)
    requires Pair(s, a, b)
    ensures Exec(s, schedule) == Some(s') && JustStored(s, s', b)
  {
    var n := |s.tasks|;
    StartIsOpen(s);
    CountComers(s, n, b, b);
    var m;
    schedule, m := OthersCome(s, n, b, b);
    var todo := s.tasks[b].todo[1..];
    assert s.tasks[b].todo == [Arrive(1)] + todo && m.arrived == [n - 1];
    var more := Stores(m, b, todo);
    ExecAppend(s, schedule, m, more);
    schedule := schedule + more;
    assert UsedUp(m).arrived + [0] == [n, 0] && m.opens + [n] == [n, n];
    s' := At(NextPhase(m), b, Task(todo, Last(Notify, 0), None));
  }

  /** `a` goes through its wait, arrives for phase 1 and falls asleep in it. */
  predicate Ahead(s: State, s': State, a: TaskId, n: nat) {
    && a < |s.tasks| && |s.tasks[a].todo| >= 3
    && s' == At(s.(expected := n - 1, arrived := [n, 1], q := Queue(s.q, a)), a,
                Task(s.tasks[a].todo[3..], Waiting(1, Parked), None))
  }

  lemma GoesAhead(s: State, a: TaskId, n: nat) returns (schedule: seq<TaskId>, s': State)
    requires Sized(s) && a < |s.tasks| && s.phase == 1 && s.expected == n >= 2 && s.arrived == [n, 0]
    requires s.q.owner == None
    requires s.tasks[a].pc == Ready && s.tasks[a].token == Some(0)
    requires |s.tasks[a].todo| >= 3 && s.tasks[a].todo[..3] == [Wait, Arrive(1), Wait]
    ensures Exec(s, schedule) == Some(s') && Ahead(s, s', a, n)
  {
    var todo := s.tasks[a].todo[3..];
    assert s.tasks[a].todo == s.tasks[a].todo[..3] + todo;
    assert s.tasks[a].todo == [Wait] + ([Arrive(1)] + ([Wait] + todo));
    schedule := PassesThrough(s, a, [Arrive(1)] + ([Wait] + todo), 0);
    var m := At(s, a, Task([Arrive(1)] + ([Wait] + todo), Ready, None));
    var more := Comes(m, a, [Wait] + todo);
    ExecAppend(s, schedule, m, more);
    assert m.arrived[1 := 1] == [n, 1];
    var m' := At(s.(expected := n - 1, arrived := [n, 1]), a, Task([Wait] + todo, Ready, Some(1)));
    assert m' == At(m.(expected := n - 1, arrived := [n, 1]), a, Task([Wait] + todo, Ready, Some(1)));
    var last := Sleeps(m', a, todo);
    ExecAppend(s, schedule + more, m', last);
    schedule := schedule + more + last;
    s' := At(s.(expected := n - 1, arrived := [n, 1], q := Queue(s.q, a)), a, Task(todo, Waiting(1, Parked), None));
    assert s' == At(m'.(q := Queue(m'.q, a)), a, Task(todo, Waiting(1, Parked), None));
  }

  /** The announcement of phase 0 is about to wake `a`, which waits for phase 1. */
  predicate AboutToWake(s: State, s': State, a: TaskId, b: TaskId) {
    var n := |s.tasks|;
    && |s'.tasks| == n >= 2 && a < n && b < n && a != b && |s.q.local| == n
    && s' == s.(expected := n - 1, phase := 1, arrived := [n, 1], opens := [n, n], completions := 1,
                q := s'.q, tasks := s'.tasks)
    && s'.q.main == [] && s'.q.owner == None && s'.q.local == s.q.local[b := [a]]
    && forall i :: 0 <= i < n && s.tasks[i].todo != [] && (i == a ==> |s.tasks[i].todo| >= 4) ==>
         s'.tasks[i] == if i == a then Task(s.tasks[i].todo[4..], Waiting(1, Parked), None)
                        else if i == b then Task(s.tasks[i].todo[1..], Last(Waking, 0), None)
                        else Task(s.tasks[i].todo[1..], Ready, Some(0))
  }

  lemma Pops(s: State, a: TaskId, b: TaskId) returns (schedule: seq<TaskId>, s': State)
    requires Sized(s) && b < |s.tasks| && s.q.main == [a] && s.q.owner == None
    requires s.tasks[b].pc == Last(Notify, 0)
    ensures Exec(s, schedule) == Some(s')
    ensures s' == At(s.(q := s.q.(main := [], local := s.q.local[b := [a]], popped := s.q.popped + [a])), b,
                     s.tasks[b].(pc := Last(Waking, 0)))
  {
    assert Front([a], 1) == [a] && Back([a], 1) == [];
    var m := s.(q := s.q.(main := [], local := s.q.local[b := [a]], popped := s.q.popped + [a]));
    Begins(s, b);
    schedule := Goes(s, [], s, b, s.tasks[b], m, s.tasks[b].(pc := Last(Waking, 0)));
    s' := At(m, b, s.tasks[b].(pc := Last(Waking, 0)));
  }

  lemma Reaches(s: State, a: TaskId, b: TaskId) returns (schedule: seq<TaskId>, s': State)
    requires Pair(s, a, b)
    ensures Exec(s, schedule) == Some(s') && AboutToWake(s, s', a, b)
  {
    var n, m1 := |s.tasks|, s;
    schedule, m1 := ReachesStored(s, a, b);
    var todo := s.tasks[a].todo;
    assert todo[1..][..3] == todo[..4][1..] && todo[1..][3..] == todo[4..];
    var more, m2 := GoesAhead(m1, a, n);
    ExecAppend(s, schedule, m1, more);
    var last, m3 := Pops(m2, a, b);
    ExecAppend(s, schedule + more, m2, last);
    schedule, s' := schedule + more + last, m3;
  }

  lemma WakesEarly(s: State, s': State, a: TaskId, b: TaskId)
    requires Pair(s, a, b) && AboutToWake(s, s', a, b)
    ensures Next(s', b).Some? && Leaves(s', Next(s', b).value, a, 1) && !Over(Next(s', b).value, 1)
    ensures Next(s', b).value == At(s'.(q := DropFront(s'.q, b)), a, Task(s.tasks[a].todo[4..], Ready, None))
  {
  }

  /** Early departure.  On any barrier of two or more tasks that all begin by arriving, any task
      that goes on to a second round can leave that round after one of its arrivals: it is woken
      by a last arriver that had stored the new phase and not yet woken the waiters of the old. */
  lemma EarlyArrivalIsWokenEarly(s: State, a: TaskId, b: TaskId) returns (run: seq<State>)
    requires Pair(s, a, b)
    ensures IsRun(Init, AnySteps, run) && run[0] == s && |run| > 1
    ensures var before, last := run[|run| - 2], run[|run| - 1];
            && Leaves(before, last, a, 1) && last.phase == 1
            && last.arrived == [|s.tasks|, 1] && last.opens == [|s.tasks|, |s.tasks|]
    ensures !NobodyEarly(run)
  {
    var schedule, asleep := Reaches(s, a, b);
    var path := ExecIsRun(s, schedule, asleep);
    WakesEarly(s, asleep, a, b);
    var last := Next(asleep, b).value;
    assert IsRun(Init, AnySteps, path);
    ExtendRun(Init, AnySteps, path, last);
    run := path + [last];
    assert !OnTime(run[|run| - 2], run[|run| - 1]);
  }

  lemma LoopBegins(s: State, rounds: seq<nat>, a: TaskId)
    requires Loops(s, rounds) && a < |rounds| && 2 <= rounds[a]
    requires forall t :: 0 <= t < |rounds| ==> 0 < rounds[t]
    ensures ArriveFirst(s) && TwoRounds(s.tasks[a].todo)
  {
    assert Rounds(rounds[a]) == [Arrive(1), Wait] + ([Arrive(1), Wait] + Rounds(rounds[a] - 2));
  }

  /** The exact condition, for the ordinary loop of arrive and wait, task t doing rounds[t] of
      them on a barrier for all: nobody leaves a phase early, in whatever interleaving, just when
      there is one task at most, or some task never arrives, or nobody does a second round. */
  lemma LoopsSafeExactly(s: State, rounds: seq<nat>)
    requires Loops(s, rounds)
    ensures SafeRounds(rounds) <==>
              forall run :: IsRun(Init, AnySteps, run) && run[0] == s ==> NobodyEarly(run)
  {
    if SafeRounds(rounds) {
      forall run | IsRun(Init, AnySteps, run) && run[0] == s ensures NobodyEarly(run) {
        SafeRunsAreCareful(run, rounds);
      }
    } else {
      var a: TaskId :| a < |rounds| && rounds[a] > 1;
      var b: TaskId := if a == 0 then 1 else 0;
      LoopBegins(s, rounds, a);
      var run := EarlyArrivalIsWokenEarly(s, a, b);
    }
  }

  /** In particular, n tasks that do r rounds each are safe just when n or r is at most 1. */
  lemma EqualRoundsSafeExactly(s: State, n: nat, r: nat)
    requires Loops(s, seq(n, _ => r))
    ensures (n <= 1 || r <= 1) <==>
              forall run :: IsRun(Init, AnySteps, run) && run[0] == s ==> NobodyEarly(run)
  {
    var rounds := seq(n, _ => r);
    LoopsSafeExactly(s, rounds);
    if n > 1 && r > 1 {
      assert rounds[0] == r;
    }
  }
}
