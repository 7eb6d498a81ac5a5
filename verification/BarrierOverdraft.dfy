/** What becomes of the counts of the barrier under loops of arrive and wait: which of them let an
    arrival find nothing expected any more. */
module BarrierOverdraft {
  import opened TaskSums
  import opened Runs
  import opened WaitProtocol
  import opened Barrier
  import opened BarrierLoops
  import opened BarrierCounts
  import opened BarrierMoves
  import opened BarrierEarly
  import opened BarrierStrands

  function Starter(task: Task): int {
    if AtStart(task) then 1 else 0
  }

  /** The count of a phase that expects as many as have not arrived. */
  predicate Counted(s: State) {
    && Sized(s) && s.initial == |s.tasks| >= 2 && s.drops == 0 && s.phase < |s.arrived| == |s.opens|
    && s.arrived[s.phase] == s.opens[s.phase] - s.expected
  }

  /** `v` has made the last arrival of the phase, and `u` is in the middle of another. */
  predicate Overdrawn(s: State, u: TaskId, v: TaskId) {
    && Counted(s) && s.expected == 0 && u < |s.tasks| && v < |s.tasks|
    && s.tasks[u].pc == Loaded(1, s.phase) && s.tasks[v].pc == Last(RunCompletion, s.phase)
  }

  /** With more arrivals to come than are expected, one of them can find the count used up. */
  lemma {:induction false} DrawsOver(s: State) returns (schedule: seq<TaskId>, s': State, u: TaskId, v: TaskId)
    requires Counted(s) && 0 < s.expected < Sum(s.tasks, Starter)
    ensures Exec(s, schedule) == Some(s') && Overdrawn(s', u, v)
    decreases s.expected
  {
    var t := SumWitness(s.tasks, Starter);
    var todo := s.tasks[t].todo[1..];
    assert s.tasks[t].todo == [Arrive(1)] + todo;
    if s.expected == 1 {
      schedule := ComesLast(s, t, todo);
      var m := At(UsedUp(s), t, Task(todo, Last(RunCompletion, s.phase), None));
      SumUpdate(s.tasks, t, m.tasks[t], Starter);
      u := SumWitness(m.tasks, Starter);
      v := t;
      s' := At(m, u, Task(m.tasks[u].todo[1..], Loaded(1, s.phase), None));
      OneStep(s, schedule, m, u, s');
      schedule := schedule + [u];
    } else {
      schedule := Comes(s, t, todo);
      var m := At(s.(expected := s.expected - 1, arrived := s.arrived[s.phase := s.arrived[s.phase] + 1]),
                  t, Task(todo, Ready, Some(s.phase)));
      SumUpdate(s.tasks, t, m.tasks[t], Starter);
      var more, last, u', v' := DrawsOver(m);
      ExecAppend(s, schedule, m, more);
      schedule, s', u, v := schedule + more, last, u', v';
    }
  }

  lemma {:induction false} AllStart(tasks: seq<Task>)
    requires forall t :: 0 <= t < |tasks| ==> AtStart(tasks[t])
    ensures Sum(tasks, Starter) == |tasks|
  {
    if tasks != [] {
      AllStart(tasks[..|tasks| - 1]);
    }
  }

  /** Where all do two rounds and one does three, the early leaver comes back to a phase with room
      for all the others but it. */
  lemma ReachesOverdraft(s: State, a: TaskId, b: TaskId)
    returns (schedule: seq<TaskId>, s': State, u: TaskId, v: TaskId)
    requires Pair(s, a, b) && AtLeastTwice(s) && |s.tasks[a].todo| >= 6
    ensures Exec(s, schedule) == Some(s') && Overdrawn(s', u, v)
  {
    var m;
    schedule, m := ReachesOneAhead(s, a, b);
    forall t | 0 <= t < |s.tasks| ensures AtStart(m.tasks[t]) {
      LoopTail(s.tasks[t].todo);
      LoopTail(s.tasks[t].todo[2..]);
      if t == a {
        assert s.tasks[t].todo[2..][2..] == s.tasks[t].todo[4..];
        LoopTail(s.tasks[t].todo[4..]);
      }
    }
    AllStart(m.tasks);
    var more, last, u', v' := DrawsOver(m);
    ExecAppend(s, schedule, m, more);
    schedule, s', u, v := schedule + more, last, u', v';
  }

  // Many early departures at once

  lemma {:induction false} ExecQueueOk(s: State, schedule: seq<TaskId>, s': State)
    requires QueueOk(s) && Exec(s, schedule) == Some(s')
    ensures QueueOk(s')
    decreases |schedule|
  {
    if schedule != [] {
      var m := Next(s, schedule[0]).value;
      NextQueueOk(s, schedule[0], m);
      ExecQueueOk(m, schedule[1..], s');
    }
  }

  /** Task `b` has gone on waking; whoever it woke was asleep. */
  predicate Woke(s: State, s': State, b: TaskId) {
    && |s'.tasks| == |s.tasks| == |s.q.local| && b < |s.tasks|
    && s' == s.(q := s.q.(local := s.q.local[b := []]), tasks := s'.tasks)
    && forall i :: 0 <= i < |s.tasks| ==>
         s'.tasks[i] == s.tasks[i] || (IsParkedTask(s.tasks[i]) && s'.tasks[i] == s.tasks[i].(pc := Ready))
  }

  lemma {:induction false} WakesAll(s: State, b: TaskId) returns (schedule: seq<TaskId>, s': State)
    requires QueueOk(s) && b < |s.tasks| && IsWaking(s.tasks[b])
    ensures Exec(s, schedule) == Some(s') && Woke(s, s', b)
    decreases |s.q.local[b]|
  {
    if s.q.local[b] == [] {
      assert s.q.local[b := []] == s.q.local;
      schedule, s' := [], s;
    } else {
      WokenTaskWaits(s, b);
      var w := s.q.local[b][0];
      var m := Goto(s, w, Ready).(q := DropFront(s.q, b));
      assert Exec(s, []) == Some(s);
      OneStep(s, [], s, b, m);
      NextQueueOk(s, b, m);
      var more, last := WakesAll(m, b);
      assert [] + [b] == [b];
      ExecAppend(s, [b], m, more);
      assert m.q.local[b := []] == s.q.local[b := []];
      schedule, s' := [b] + more, last;
    }
  }

  lemma NobodyParked(s: State)
    requires QueueOk(s) && s.q.main == [] && forall r :: 0 <= r < |s.q.local| ==> s.q.local[r] == []
    ensures forall t :: 0 <= t < |s.tasks| ==> !IsParkedTask(s.tasks[t])
  {
    AllInMain(s.q, PhasesOf(s.tasks));
    forall t: TaskId | t < |s.tasks| ensures !IsParkedTask(s.tasks[t]) {
      assert ParkedAt(PhasesOf(s.tasks), t) <==> t in s.q.main;
    }
  }

  /** `b`, which does one round, has closed phase 0; all others have come through. */
  predicate OthersThrough(s: State, s': State, b: TaskId) {
    var n := |s.tasks|;
    && |s'.tasks| == n
    && s' == s.(expected := n, phase := 1, arrived := [n, 0], opens := [n, n], completions := 1, tasks := s'.tasks)
    && forall i :: 0 <= i < n && |s.tasks[i].todo| >= 2 ==>
         s'.tasks[i] == if i == b then Task(s.tasks[i].todo[1..], Last(Notify, 0), None)
                        else Task(s.tasks[i].todo[2..], Ready, None)
  }

  lemma ReachesThrough(s: State, a: TaskId, b: TaskId) returns (schedule: seq<TaskId>, s': State)
    requires Pair(s, a, b) && AllLoop(s)
    ensures Exec(s, schedule) == Some(s') && OthersThrough(s, s', b)
  {
    var m;
    schedule, m := ReachesStored(s, a, b);
    forall t | 0 <= t < |s.tasks|
      ensures |s.tasks[t].todo| >= 2 && s.tasks[t].todo[1..][0] == Wait
      ensures s.tasks[t].todo[1..][1..] == s.tasks[t].todo[2..]
    {
      LoopTail(s.tasks[t].todo);
    }
    assert CanPass(m);
    var more, last := AllPass(m, |s.tasks|);
    ExecAppend(s, schedule, m, more);
    schedule, s' := schedule + more, last;
  }

  /** All with a second round have arrived for it and sleep. */
  predicate OthersAsleep(s: State, m: State, s': State, b: TaskId) {
    var n := |s.tasks|;
    && |m.tasks| == |s'.tasks| == n && OthersThrough(s, m, b) && Comers(m, n, b, b) < n && Sized(s')
    && s'.expected == n - Comers(m, n, b, b) && s'.phase == 1 && s'.arrived == [n, Comers(m, n, b, b)]
    && s'.opens == [n, n] && s'.initial == n && s'.drops == 0
    && s'.q.owner == None && s'.q.local == s.q.local
    && forall i :: 0 <= i < n && |s.tasks[i].todo| >= 2 && i != b ==>
         s'.tasks[i] == if |s.tasks[i].todo| >= 4 then Task(s.tasks[i].todo[4..], Waiting(1, Parked), None)
                        else Task(s.tasks[i].todo[2..], Ready, None)
  }

  lemma ThroughBegins(s: State, m: State, b: TaskId)
    requires AllLoop(s) && OthersThrough(s, m, b) && forall t :: 0 <= t < |s.tasks| ==> s.tasks[t].todo != []
    ensures forall t :: 0 <= t < |s.tasks| && t != b ==>
              |s.tasks[t].todo| >= 2 && (Comer(m, t, b, b) <==> |s.tasks[t].todo| >= 4)
    ensures forall t :: 0 <= t < |s.tasks| && t != b && |s.tasks[t].todo| >= 4 ==>
              m.tasks[t].todo[1..][0] == Wait && m.tasks[t].todo[1..][1..] == s.tasks[t].todo[4..]
  {
    forall t | 0 <= t < |s.tasks| && t != b
      ensures |s.tasks[t].todo| >= 2 && (Comer(m, t, b, b) <==> |s.tasks[t].todo| >= 4)
      ensures |s.tasks[t].todo| >= 4 ==>
                m.tasks[t].todo[1..][0] == Wait && m.tasks[t].todo[1..][1..] == s.tasks[t].todo[4..]
    {
      LoopTail(s.tasks[t].todo);
      if s.tasks[t].todo[2..] != [] {
        LoopTail(s.tasks[t].todo[2..]);
      }
    }
  }

  lemma ReachesAsleep(s: State, a: TaskId, b: TaskId) returns (schedule: seq<TaskId>, m: State, s': State)
    requires Pair(s, a, b) && AllLoop(s)
    ensures Exec(s, schedule) == Some(s') && OthersAsleep(s, m, s', b)
    ensures s'.tasks[b] == Task(s.tasks[b].todo[1..], Last(Notify, 0), None)
  {
    schedule, m := ReachesThrough(s, a, b);
    LoopTail(s.tasks[b].todo);
    var more;
    more, s' := FallAsleep(s, m, b);
    ExecAppend(s, schedule, m, more);
    schedule := schedule + more;
  }

  /** All with a second round have arrived for it. */
  predicate OthersArrived(s: State, m: State, m': State, b: TaskId) {
    var n := |s.tasks|;
    && |m.tasks| == |m'.tasks| == n && Sized(m') && m'.q == s.q && m'.phase == 1
    && m'.expected == n - Comers(m, n, b, b) && m'.arrived == [n, Comers(m, n, b, b)]
    && m'.opens == [n, n] && m'.initial == n && m'.drops == 0
    && forall i :: 0 <= i < n && |s.tasks[i].todo| >= 2 ==>
         m'.tasks[i] == if i == b then Task(s.tasks[i].todo[1..], Last(Notify, 0), None)
                        else if |s.tasks[i].todo| >= 4 then Task(s.tasks[i].todo[2..][1..], Ready, Some(1))
                        else Task(s.tasks[i].todo[2..], Ready, None)
  }

  lemma HaveArrived(s: State, m: State, m': State, b: TaskId)
    requires OthersThrough(s, m, b) && Sized(m) && s.initial == |s.tasks| && s.drops == 0 && b < |s.tasks|
    requires Came(m, m', |s.tasks|, b, b)
    requires forall t :: 0 <= t < |s.tasks| && t != b ==> (Comer(m, t, b, b) <==> |s.tasks[t].todo| >= 4)
    ensures OthersArrived(s, m, m', b)
  {
    assert m'.arrived == [|s.tasks|, Comers(m, |s.tasks|, b, b)];
  }

  lemma FallAsleep(s: State, m: State, b: TaskId) returns (schedule: seq<TaskId>, s': State)
    requires AllLoop(s) && OthersThrough(s, m, b) && Sized(m) && s.q.owner == None && b < |s.tasks|
    requires s.initial == |s.tasks| && s.drops == 0 && |s.tasks[b].todo| >= 2
    requires forall t :: 0 <= t < |s.tasks| ==> s.tasks[t].todo != []
    ensures Exec(m, schedule) == Some(s') && OthersAsleep(s, m, s', b)
    ensures s'.tasks[b] == Task(s.tasks[b].todo[1..], Last(Notify, 0), None)
  {
    var n := |s.tasks|;
    CountComers(m, n, b, b);
    ThroughBegins(s, m, b);
    var m';
    schedule, m' := OthersCome(m, n, b, b);
    HaveArrived(s, m, m', b);
    var more, last := ArrivedSleep(s, m, m', b);
    ExecAppend(m, schedule, m', more);
    schedule, s' := schedule + more, last;
  }

  lemma ArrivedSleep(s: State, m: State, m': State, b: TaskId) returns (schedule: seq<TaskId>, s': State)
    requires OthersThrough(s, m, b) && OthersArrived(s, m, m', b) && s.q.owner == None && b < |s.tasks|
    requires |s.tasks[b].todo| >= 2 && Comers(m, |s.tasks|, b, b) < |s.tasks|
    requires forall t :: 0 <= t < |s.tasks| && t != b ==> |s.tasks[t].todo| >= 2
    requires forall t :: 0 <= t < |s.tasks| && t != b && |s.tasks[t].todo| >= 4 ==>
               m.tasks[t].todo[1..][0] == Wait && m.tasks[t].todo[1..][1..] == s.tasks[t].todo[4..]
    ensures Exec(m', schedule) == Some(s') && OthersAsleep(s, m, s', b)
    ensures s'.tasks[b] == Task(s.tasks[b].todo[1..], Last(Notify, 0), None)
  {
    assert MustWait(m');
    schedule, s' := AllSleep(m', |s.tasks|);
  }

  lemma Announces(s: State, b: TaskId) returns (s': State)
    requires QueueOk(s) && b < |s.tasks| && IsNotify(s.tasks[b]) && s.q.owner == None
    requires forall r :: 0 <= r < |s.q.local| ==> s.q.local[r] == []
    ensures Next(s, b) == Some(s') && s'.q.main == [] && s'.q.local == s.q.local[b := s.q.main] && IsWaking(s'.tasks[b])
    ensures s' == s.(q := s'.q, tasks := s.tasks[b := s.tasks[b].(pc := Last(Waking, s.tasks[b].pc.phase))])
  {
    s' := Next(s, b).value;
    NotifyQueueOk(s, b, s');
  }

  /** All that sleep have been woken. */
  predicate AllWoken(s: State, s': State, b: TaskId) {
    && |s'.tasks| == |s.tasks| && s' == s.(q := s'.q, tasks := s'.tasks) && Sized(s')
    && b < |s.tasks| && s'.tasks[b].pc.Last?
    && forall i :: 0 <= i < |s.tasks| && i != b ==>
         s'.tasks[i] == if IsParkedTask(s.tasks[i]) then s.tasks[i].(pc := Ready) else s.tasks[i]
  }

  lemma WakesEverybody(s: State, b: TaskId) returns (schedule: seq<TaskId>, s': State)
    requires QueueOk(s) && b < |s.tasks| && IsNotify(s.tasks[b]) && s.q.owner == None
    requires forall r :: 0 <= r < |s.q.local| ==> s.q.local[r] == []
    ensures Exec(s, schedule) == Some(s') && AllWoken(s, s', b)
  {
    var m := Announces(s, b);
    assert Exec(s, []) == Some(s);
    OneStep(s, [], s, b, m);
    assert [] + [b] == [b];
    NextQueueOk(s, b, m);
    var more, last := WakesAll(m, b);
    ExecAppend(s, [b], m, more);
    schedule, s' := [b] + more, last;
    ExecQueueOk(m, more, last);
    assert last.q.local == s.q.local;
    NobodyParked(last);
  }

  lemma {:induction false} PlacesTaken(rounds: seq<nat>, tasks: seq<Task>, m: State, j: nat, b: TaskId)
    requires j <= |rounds| == |tasks| == |m.tasks|
    requires forall i :: 0 <= i < j ==>
               Starter(tasks[i]) + (if Comer(m, i, b, b) then 1 else 0) == Most(1, rounds[i])
    ensures Sum(tasks[..j], Starter) + Comers(m, j, b, b) == Sum(rounds[..j], Mosts(1))
  {
    if j > 0 {
      PlacesTaken(rounds, tasks, m, j - 1, b);
      SumPrefix(tasks, j, Starter);
      SumPrefix(rounds, j, Mosts(1));
    }
  }

  lemma WhoStarts(s: State, rounds: seq<nat>, m: State, asleep: State, s': State, b: TaskId)
    requires Loops(s, rounds) && AllLoop(s) && OthersAsleep(s, m, asleep, b) && AllWoken(asleep, s', b)
    requires b < |rounds| && rounds[b] == 1 && forall t :: 0 <= t < |rounds| ==> 1 <= rounds[t]
    ensures Sum(s'.tasks, Starter) + Comers(m, |s.tasks|, b, b) == Sum(rounds, Mosts(1))
  {
    LoopsAre(s, rounds);
    forall i | 0 <= i < |rounds|
      ensures Starter(s'.tasks[i]) + (if Comer(m, i, b, b) then 1 else 0) == Most(1, rounds[i])
    {
      var todo := s.tasks[i].todo;
      LoopTail(todo);
      if i != b && todo[2..] != [] {
        LoopTail(todo[2..]);
        assert todo[2..][2..] == todo[4..];
        if todo[4..] != [] {
          LoopTail(todo[4..]);
        }
      }
    }
    assert s'.tasks[..|rounds|] == s'.tasks && rounds[..|rounds|] == rounds;
    PlacesTaken(rounds, s'.tasks, m, |rounds|, b);
  }

  /** Where `b` does one round, all that were early can crowd phase 1 together. */
  lemma ReachesCrowd(s: State, rounds: seq<nat>, a: TaskId, b: TaskId)
    returns (schedule: seq<TaskId>, s': State, u: TaskId, v: TaskId)
    requires Loops(s, rounds) && Pair(s, a, b) && rounds[b] == 1 && forall t :: 0 <= t < |rounds| ==> 1 <= rounds[t]
    requires |rounds| < Sum(rounds, Mosts(1))
    ensures Exec(s, schedule) == Some(s') && Overdrawn(s', u, v)
  {
    LoopsAre(s, rounds);
    InitHasInv(s);
    var m, asleep;
    schedule, m, asleep := ReachesAsleep(s, a, b);
    ExecQueueOk(s, schedule, asleep);
    var more, awake := WakesEverybody(asleep, b);
    ExecAppend(s, schedule, asleep, more);
    WhoStarts(s, rounds, m, asleep, awake, b);
    schedule := schedule + more;
    var rest, last, u', v' := DrawsOver(awake);
    ExecAppend(s, schedule, awake, rest);
    schedule, s', u, v := schedule + rest, last, u', v';
  }

  // The exact condition

  /** No arrival takes more than is expected: the assertion that fetch_sub leaves room for. */
  predicate NeverOverdrawn(run: seq<State>) {
    forall i, t :: 0 <= i < |run| && 0 <= t < |run[i].tasks| && run[i].tasks[t].pc.Loaded? ==>
      run[i].tasks[t].pc.update <= run[i].expected
  }

  /** The completion runs when all arrivals of its phase have been made, and no more. */
  predicate CompletesFull(run: seq<State>) {
    forall i :: 0 < i < |run| && run[i].completions == run[i - 1].completions + 1 ==>
      && run[i].phase < |run[i].arrived| == |run[i].opens|
      && run[i].arrived[run[i].phase] == run[i].opens[run[i].phase]
  }

  /** Every phase opens with the initial count less all drops. */
  predicate OpensFull(run: seq<State>) {
    forall i :: 0 < i < |run| && run[i].phase != run[i - 1].phase ==>
      run[i].expected == run[0].initial - run[i].drops
  }

  ghost predicate CountsRight(run: seq<State>) {
    NeverOverdrawn(run) && CompletesFull(run) && OpensFull(run)
  }

  lemma AllowedCountsRight(run: seq<State>)
    requires IsRun(Init, Steps, run)
    ensures CountsRight(run)
  {
    forall i: nat, t: TaskId | i < |run| && t < |run[i].tasks| && run[i].tasks[t].pc.Loaded?
      ensures run[i].tasks[t].pc.update <= run[i].expected
    {
      CountersSuffice(run, i, t);
    }
    forall i: nat | 0 < i < |run| && run[i].completions == run[i - 1].completions + 1
      ensures run[i].phase < |run[i].arrived| == |run[i].opens|
      ensures run[i].arrived[run[i].phase] == run[i].opens[run[i].phase]
    {
      CompletesOncePerPhase(run, i);
    }
    forall i: nat | 0 < i < |run| && run[i].phase != run[i - 1].phase
      ensures run[i].expected == run[0].initial - run[i].drops
    {
      OpensWithDropsDeducted(run, i);
    }
  }

  /** A run that goes on by one step. */
  lemma RunTo(s: State, schedule: seq<TaskId>, m: State, t: TaskId, s': State) returns (run: seq<State>)
    requires Init(s) && Exec(s, schedule) == Some(m) && Sized(m) && t < |m.tasks| && Next(m, t) == Some(s')
    ensures IsRun(Init, AnySteps, run) && run[0] == s && |run| > 1
    ensures run[|run| - 2] == m && run[|run| - 1] == s'
  {
    var path := ExecIsRun(s, schedule, m);
    assert IsRun(Init, AnySteps, path);
    ExtendRun(Init, AnySteps, path, s');
    run := path + [s'];
  }

  /** The arrival that is too many is made before the completion runs. */
  lemma CompletesOverfull(s: State, schedule: seq<TaskId>, m: State, u: TaskId, v: TaskId) returns (run: seq<State>)
    requires Init(s) && Exec(s, schedule) == Some(m) && Overdrawn(m, u, v)
    ensures IsRun(Init, AnySteps, run) && run[0] == s && !CompletesFull(run)
  {
    var m1 := Next(m, u).value;
    OneStep(s, schedule, m, u, m1);
    run := RunTo(s, schedule + [u], m1, v, Next(m1, v).value);
  }

  /** Or it is made once the count of the next phase has been stored, and is missing there. */
  lemma OpensShort(s: State, schedule: seq<TaskId>, m: State, u: TaskId, v: TaskId) returns (run: seq<State>)
    requires Init(s) && s.initial == m.initial && Exec(s, schedule) == Some(m) && Overdrawn(m, u, v)
    ensures IsRun(Init, AnySteps, run) && run[0] == s && !OpensFull(run)
  {
    var m1 := Next(m, v).value;
    OneStep(s, schedule, m, v, m1);
    var m2 := Next(m1, v).value;
    OneStep(s, schedule + [v], m1, v, m2);
    var m3 := Next(m2, v).value;
    OneStep(s, schedule + [v] + [v], m2, v, m3);
    var m4 := Next(m3, u).value;
    OneStep(s, schedule + [v] + [v] + [v], m3, u, m4);
    run := RunTo(s, schedule + [v] + [v] + [v] + [u], m4, v, Next(m4, v).value);
  }

  lemma ReachesOverdrawn(s: State, rounds: seq<nat>)
    returns (schedule: seq<TaskId>, s': State, u: TaskId, v: TaskId)
    requires Loops(s, rounds) && !SafeCounts(rounds)
    ensures Exec(s, schedule) == Some(s') && Overdrawn(s', u, v)
  {
    SumNonNegative(rounds, Once);
    var a: TaskId := SumWitness(rounds, Thrice);
    LoopBegins(s, rounds, a);
    if b: TaskId :| b < |rounds| && rounds[b] == 1 {
      PlacesInPhaseOne(rounds);
      schedule, s', u, v := ReachesCrowd(s, rounds, a, b);
    } else {
      var b: TaskId := if a == 0 then 1 else 0;
      LoopsArePair(s, rounds, a, b);
      schedule, s', u, v := ReachesOverdraft(s, a, b);
    }
  }

  /** From any other loop a run on which an arrival finds nothing expected any more, one whose
      completion runs after too many arrivals, and one with a phase that opens one short. */
  lemma LoopOverdraws(s: State, rounds: seq<nat>) returns (over: seq<State>, overfull: seq<State>, short: seq<State>)
    requires Loops(s, rounds) && !SafeCounts(rounds)
    ensures IsRun(Init, AnySteps, over) && over[0] == s && !NeverOverdrawn(over)
    ensures IsRun(Init, AnySteps, overfull) && overfull[0] == s && !CompletesFull(overfull)
    ensures IsRun(Init, AnySteps, short) && short[0] == s && !OpensFull(short)
  {
    var schedule, last, u, v := ReachesOverdrawn(s, rounds);
    InitHasInv(s);
    TasksCount(s, schedule, last);
    over := ExecIsRun(s, schedule, last);
    assert over[|over| - 1].tasks[u].pc.Loaded?;
    overfull := CompletesOverfull(s, schedule, last, u, v);
    short := OpensShort(s, schedule, last, u, v);
  }

  lemma {:induction false} TasksCount(s: State, schedule: seq<TaskId>, s': State)
    requires QueueOk(s) && Exec(s, schedule) == Some(s')
    ensures |s'.tasks| == |s.tasks|
    decreases |schedule|
  {
    if schedule != [] {
      var t, m := schedule[0], Next(s, schedule[0]).value;
      WokenTaskWaits(s, t);
      StepShape(s, t, m);
      NextQueueOk(s, t, m);
      TasksCount(m, schedule[1..], s');
    }
  }

  /** The exact condition for the counts of the loop: the runs all keep to the interface, no
      arrival takes more than is expected, completions run after all arrivals of their phase and
      no more, and phases open with the whole count, each just when there is one task at most, or
      some task never arrives, or no more tasks do three rounds or more than do exactly one. */
  lemma CountsHoldExactly(s: State, rounds: seq<nat>)
    requires Loops(s, rounds)
    ensures SafeCounts(rounds) <==>
              forall run :: IsRun(Init, AnySteps, run) && run[0] == s ==> IsRun(Init, Steps, run)
    ensures SafeCounts(rounds) <==>
              forall run :: IsRun(Init, AnySteps, run) && run[0] == s ==> NeverOverdrawn(run)
    ensures SafeCounts(rounds) <==>
              forall run :: IsRun(Init, AnySteps, run) && run[0] == s ==> CompletesFull(run)
    ensures SafeCounts(rounds) <==>
              forall run :: IsRun(Init, AnySteps, run) && run[0] == s ==> OpensFull(run)
  {
    if SafeCounts(rounds) {
      forall run | IsRun(Init, AnySteps, run) && run[0] == s ensures IsRun(Init, Steps, run) && CountsRight(run) {
        SafeRunsAreAllowed(run, rounds);
        AllowedCountsRight(run);
      }
    } else {
      var over, overfull, short := LoopOverdraws(s, rounds);
      if IsRun(Init, Steps, over) {
        AllowedCountsRight(over);
      }
    }
  }

  /** In particular, with n tasks that do r rounds each it is n <= 1 or r <= 2. */
  lemma EqualCountsHoldExactly(s: State, n: nat, r: nat)
    requires Loops(s, seq(n, _ => r))
    ensures (n <= 1 || r <= 2) <==>
              forall run :: IsRun(Init, AnySteps, run) && run[0] == s ==> IsRun(Init, Steps, run)
    ensures (n <= 1 || r <= 2) <==>
              forall run :: IsRun(Init, AnySteps, run) && run[0] == s ==> NeverOverdrawn(run)
    ensures (n <= 1 || r <= 2) <==>
              forall run :: IsRun(Init, AnySteps, run) && run[0] == s ==> CompletesFull(run)
    ensures (n <= 1 || r <= 2) <==>
              forall run :: IsRun(Init, AnySteps, run) && run[0] == s ==> OpensFull(run)
  {
    var rounds: seq<nat> := seq(n, _ => r);
    SumNonNegative(rounds, Once);
    if r <= 2 {
      SumZero(rounds, Thrice);
    } else if n > 1 {
      SumAtLeast(rounds, 0, Thrice);
      SumZero(rounds, Once);
    }
    CountsHoldExactly(s, rounds);
  }
}
