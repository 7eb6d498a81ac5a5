/** Which loops of arrive and wait on one barrier always come to an end, and how the others can
    strand somebody. */
module BarrierStrands {
  import opened TaskSums
  import opened Runs
  import opened WaitProtocol
  import opened Barrier
  import opened BarrierLoops
  import opened BarrierCounts
  import opened BarrierMoves
  import opened BarrierEarly

  /** Everybody between two rounds of a phase that nobody has arrived for. */
  predicate Quiet(s: State) {
    && Open(s) && s.expected == s.initial == |s.tasks| && |s.arrived| == s.phase + 1 && s.arrived[s.phase] == 0
    && forall t :: 0 <= t < |s.tasks| ==> IsLoop(s.tasks[t].todo)
  }

  /** Whoever still has work does one round. */
  predicate OneRoundLater(s: State, s': State) {
    && Quiet(s') && s'.phase == s.phase + 1 && |s'.tasks| == |s.tasks|
    && forall t :: 0 <= t < |s.tasks| ==> |s.tasks[t].todo| >= 2 && s'.tasks[t].todo == s.tasks[t].todo[2..]
  }

  lemma LoopTail(todo: seq<Job>)
    requires IsLoop(todo) && todo != []
    ensures |todo| >= 2 && todo[0] == Arrive(1) && todo[1..] != [] && todo[1..][0] == Wait
    ensures todo[1..][1..] == todo[2..] && IsLoop(todo[2..])
  {
  }

  /** A round in which everybody takes part, and nobody has to sleep. */
  lemma RoundTogether(s: State) returns (schedule: seq<TaskId>, s': State)
    requires Quiet(s) && 0 < |s.tasks| && forall t :: 0 <= t < |s.tasks| ==> s.tasks[t].todo != []
    ensures Exec(s, schedule) == Some(s') && OneRoundLater(s, s')
  {
    var n := |s.tasks|;
    CountComers(s, n, 0, 0);
    var m;
    schedule, m := OthersCome(s, n, 0, 0);
    LoopTail(s.tasks[0].todo);
    var todo := s.tasks[0].todo[1..];
    assert m.tasks[0] == s.tasks[0] && s.tasks[0].todo == [Arrive(1)] + todo;
    var more := Closes(m, 0, todo);
    ExecAppend(s, schedule, m, more);
    schedule := schedule + more;
    var closed := At(NextPhase(m), 0, Task(todo, Ready, Some(m.phase)));
    forall t | 0 <= t < n ensures closed.tasks[t] == Task(s.tasks[t].todo[1..], Ready, Some(s.phase)) {
    }
    var last, after := PassTogether(s, closed);
    ExecAppend(s, schedule, closed, last);
    schedule, s' := schedule + last, after;
  }

  lemma PassTogether(s: State, closed: State) returns (schedule: seq<TaskId>, s': State)
    requires Quiet(s) && |closed.tasks| == |s.tasks| && Sized(closed) && NobodyQueued(closed.q)
    requires closed.phase == s.phase + 1 && |closed.arrived| == closed.phase + 1 && closed.arrived[closed.phase] == 0
    requires closed.expected == closed.initial == |s.tasks|
    requires forall t :: 0 <= t < |s.tasks| ==>
               s.tasks[t].todo != [] && closed.tasks[t] == Task(s.tasks[t].todo[1..], Ready, Some(s.phase))
    ensures Exec(closed, schedule) == Some(s') && OneRoundLater(s, s')
  {
    forall t | 0 <= t < |s.tasks|
      ensures closed.tasks[t].todo != [] && closed.tasks[t].todo[0] == Wait
      ensures |s.tasks[t].todo| >= 2 && closed.tasks[t].todo[1..] == s.tasks[t].todo[2..]
      ensures IsLoop(s.tasks[t].todo[2..])
    {
      LoopTail(s.tasks[t].todo);
    }
    schedule, s' := AllPass(closed, |closed.tasks|);
    forall t | 0 <= t < |s.tasks|
      ensures s'.tasks[t] == Task(s.tasks[t].todo[2..], Ready, None) && IsLoop(s'.tasks[t].todo)
    {
      var todo := s.tasks[t].todo[2..];
      if todo != [] {
        LoopTail(todo);
      }
    }
  }

  // Some have rounds left and others none

  lemma RoundForSome(s: State, a: TaskId, b: TaskId) returns (schedule: seq<TaskId>, s': State)
    requires Quiet(s) && a < |s.tasks| && b < |s.tasks| && s.tasks[a].todo != [] && s.tasks[b].todo == []
    ensures Exec(s, schedule) == Some(s') && Stuck(s') && !AllDone(s')
  {
    var n := |s.tasks|;
    CountComers(s, n, b, b);
    var m;
    schedule, m := OthersCome(s, n, b, b);
    forall t | 0 <= t < n && m.tasks[t].token.Some? ensures m.tasks[t].todo != [] && m.tasks[t].todo[0] == Wait {
      LoopTail(s.tasks[t].todo);
    }
    assert MustWait(m);
    var more, last := AllSleep(m, n);
    ExecAppend(s, schedule, m, more);
    schedule, s' := schedule + more, last;
    assert Comer(s, a, b, b);
    LoopTail(s.tasks[a].todo);
    assert m.tasks[a].token.Some? && s'.tasks[a].pc.Waiting? && !Done(s'.tasks[a]);
    SleepersStuck(s, m, s', b);
  }

  lemma SleepersStuck(s: State, m: State, s': State, b: TaskId)
    requires Quiet(s) && Came(s, m, |s.tasks|, b, b) && Slept(m, s', |s.tasks|)
    requires b < |s.tasks| && s.tasks[b].todo == []
    requires forall t :: 0 <= t < |s.tasks| && m.tasks[t].token.Some? ==> m.tasks[t].todo != []
    ensures Stuck(s')
  {
    forall t: TaskId | t < |s'.tasks| ensures Next(s', t) == None {
      assert s'.tasks[t].todo == [] || Comer(s, t, b, b);
    }
  }

  /** Unequal numbers of rounds: after as many rounds as everybody has, the others sleep for ever. */
  lemma {:induction false} UnevenStrands(s: State, a: TaskId, b: TaskId) returns (schedule: seq<TaskId>, s': State)
    requires Quiet(s) && a < |s.tasks| && b < |s.tasks| && |s.tasks[b].todo| < |s.tasks[a].todo|
    ensures Exec(s, schedule) == Some(s') && Stuck(s') && !AllDone(s')
    decreases |s.tasks[a].todo|
  {
    if e :| 0 <= e < |s.tasks| && s.tasks[e].todo == [] {
      schedule, s' := RoundForSome(s, a, e);
    } else {
      var m, last, more;
      schedule, m := RoundTogether(s);
      more, last := UnevenStrands(m, a, b);
      ExecAppend(s, schedule, m, more);
      schedule, s' := schedule + more, last;
    }
  }

  // After an early departure

  /** `a` has left phase 1 early, `b` has returned, and all are between two rounds. */
  predicate OneAhead(s: State, s': State, a: TaskId, b: TaskId) {
    var n := |s.tasks|;
    && |s'.tasks| == n >= 2 && a < n && b < n && a != b && Sized(s') && NobodyQueued(s'.q)
    && s' == s.(expected := n - 1, phase := 1, arrived := [n, 1], opens := [n, n], completions := 1,
                q := s'.q, tasks := s'.tasks)
    && forall i :: 0 <= i < n && |s.tasks[i].todo| >= 2 && (i == a ==> |s.tasks[i].todo| >= 4) ==>
         s'.tasks[i] == Task(if i == a then s.tasks[i].todo[4..] else s.tasks[i].todo[2..], Ready, None)
  }

  predicate AllLoop(s: State) {
    forall t :: 0 <= t < |s.tasks| ==> IsLoop(s.tasks[t].todo)
  }

  /** `a` has been woken, and `b` has nobody left to wake. */
  predicate Woken(s: State, s': State, a: TaskId, b: TaskId) {
    var n := |s.tasks|;
    && |s'.tasks| == n >= 2 && a < n && b < n && a != b && Sized(s') && NobodyQueued(s'.q)
    && s' == s.(expected := n - 1, phase := 1, arrived := [n, 1], opens := [n, n], completions := 1,
                q := s'.q, tasks := s'.tasks)
    && forall i :: 0 <= i < n && s.tasks[i].todo != [] && (i == a ==> |s.tasks[i].todo| >= 4) ==>
         s'.tasks[i] == if i == a then Task(s.tasks[i].todo[4..], Ready, None)
                        else if i == b then Task(s.tasks[i].todo[1..], Last(Waking, 0), None)
                        else Task(s.tasks[i].todo[1..], Ready, Some(0))
  }

  lemma OneStep(s: State, schedule: seq<TaskId>, m: State, t: TaskId, s': State)
    requires Exec(s, schedule) == Some(m) && Sized(m) && t < |m.tasks| && Next(m, t) == Some(s')
    ensures Exec(s, schedule + [t]) == Some(s')
  {
    assert [t][1..] == [];
    assert Exec(m, [t]) == Exec(s', []);
    ExecAppend(s, schedule, m, [t]);
  }

  lemma ReachesWoken(s: State, a: TaskId, b: TaskId) returns (schedule: seq<TaskId>, s': State)
    requires Pair(s, a, b)
    ensures Exec(s, schedule) == Some(s') && Woken(s, s', a, b)
  {
    var m;
    schedule, m := Reaches(s, a, b);
    WakesEarly(s, m, a, b);
    s' := Next(m, b).value;
    OneStep(s, schedule, m, b, s');
    schedule := schedule + [b];
  }

  lemma ReachesOneAhead(s: State, a: TaskId, b: TaskId) returns (schedule: seq<TaskId>, s': State)
    requires Pair(s, a, b) && AllLoop(s)
    ensures Exec(s, schedule) == Some(s') && OneAhead(s, s', a, b)
  {
    var m;
    schedule, m := ReachesWoken(s, a, b);
    var todo := s.tasks[b].todo[1..];
    var back := At(m, b, Task(todo, Ready, Some(0)));
    OneStep(s, schedule, m, b, back);
    schedule := schedule + [b];
    forall t | 0 <= t < |s.tasks|
      ensures |s.tasks[t].todo| >= 2 && s.tasks[t].todo[1..][0] == Wait
      ensures s.tasks[t].todo[1..][1..] == s.tasks[t].todo[2..]
    {
      LoopTail(s.tasks[t].todo);
    }
    assert CanPass(back);
    var more, last := AllPass(back, |s.tasks|);
    ExecAppend(s, schedule, back, more);
    schedule, s' := schedule + more, last;
  }

  /** All others but `b` have arrived for phase 1 as well. */
  predicate OneToCome(s: State, s': State, a: TaskId, b: TaskId) {
    var n := |s.tasks|;
    && |s'.tasks| == n >= 2 && a < n && b < n && a != b && Sized(s') && NobodyQueued(s'.q)
    && s' == s.(expected := 1, phase := 1, arrived := [n, n - 1], opens := [n, n], completions := 1,
                q := s'.q, tasks := s'.tasks)
    && forall i :: 0 <= i < n && |s.tasks[i].todo| >= 4 ==>
         s'.tasks[i] == if i == a then Task(s.tasks[i].todo[4..], Ready, None)
                        else if i == b then Task(s.tasks[i].todo[2..], Ready, None)
                        else Task(s.tasks[i].todo[3..], Ready, Some(1))
  }

  predicate AtLeastTwice(s: State) {
    AllLoop(s) && forall t :: 0 <= t < |s.tasks| ==> |s.tasks[t].todo| >= 4
  }

  lemma AheadBegins(s: State, m: State, a: TaskId, b: TaskId)
    requires AtLeastTwice(s) && OneAhead(s, m, a, b)
    ensures Sized(m) && m.phase < |m.arrived|
    ensures forall t :: 0 <= t < |s.tasks| && t != a ==>
              AtStart(m.tasks[t]) && m.tasks[t].todo[1..] == s.tasks[t].todo[3..]
  {
    forall t | 0 <= t < |s.tasks| && t != a
      ensures AtStart(m.tasks[t]) && m.tasks[t].todo[1..] == s.tasks[t].todo[3..]
    {
      LoopTail(s.tasks[t].todo);
      LoopTail(s.tasks[t].todo[2..]);
    }
  }

  lemma ReachesOneToCome(s: State, a: TaskId, b: TaskId) returns (schedule: seq<TaskId>, s': State)
    requires Pair(s, a, b) && AtLeastTwice(s)
    ensures Exec(s, schedule) == Some(s') && OneToCome(s, s', a, b)
  {
    var n, m := |s.tasks|, s;
    schedule, m := ReachesOneAhead(s, a, b);
    AheadBegins(s, m, a, b);
    CountComers(m, n, a, b);
    var more, last := OthersCome(m, n, a, b);
    ExecAppend(s, schedule, m, more);
    schedule, s' := schedule + more, last;
    OthersCame(s, m, s', a, b);
  }

  lemma OthersCame(s: State, m: State, s': State, a: TaskId, b: TaskId)
    requires AtLeastTwice(s) && OneAhead(s, m, a, b) && Came(m, s', |s.tasks|, a, b)
    requires Comers(m, |s.tasks|, a, b) == |s.tasks| - 2
    requires forall t :: 0 <= t < |s.tasks| && t != a ==>
               AtStart(m.tasks[t]) && m.tasks[t].todo[1..] == s.tasks[t].todo[3..]
    ensures OneToCome(s, s', a, b)
  {
    var n := |s.tasks|;
    assert m.arrived[1 := 1 + (n - 2)] == [n, n - 1];
  }

  /** The early leaver, in its third round, makes the last arrival of phase 1 itself, in place of `b`. */
  lemma ReachesUneven(s: State, a: TaskId, b: TaskId) returns (schedule: seq<TaskId>, s': State)
    requires Pair(s, a, b) && AtLeastTwice(s) && |s.tasks[a].todo| >= 6
    ensures Exec(s, schedule) == Some(s') && Quiet(s') && |s'.tasks| == |s.tasks|
    ensures |s'.tasks[a].todo| == |s.tasks[a].todo| - 6 && |s'.tasks[b].todo| == |s.tasks[b].todo| - 2
  {
    var m, n := s, |s.tasks|;
    schedule, m := ReachesOneToCome(s, a, b);
    var ta := s.tasks[a].todo;
    LoopTail(ta);
    LoopTail(ta[2..]);
    assert ta[2..][2..] == ta[4..];
    LoopTail(ta[4..]);
    assert ta[4..] == [Arrive(1)] + ta[5..] && ta[4..][1..] == ta[5..] && ta[4..][2..] == ta[6..];
    var more := Closes(m, a, ta[5..]);
    ExecAppend(s, schedule, m, more);
    schedule := schedule + more;
    var d := At(NextPhase(m), a, Task(ta[5..], Ready, Some(1)));
    forall t | 0 <= t < n && t != a && t != b
      ensures d.tasks[t] == Task(s.tasks[t].todo[3..], Ready, Some(1))
      ensures s.tasks[t].todo[3..][0] == Wait && s.tasks[t].todo[3..][1..] == s.tasks[t].todo[4..]
      ensures IsLoop(s.tasks[t].todo[4..])
    {
      var todo := s.tasks[t].todo;
      LoopTail(todo);
      LoopTail(todo[2..]);
      assert todo[2..][1..] == todo[3..] && todo[2..][2..] == todo[4..];
    }
    assert CanPass(d);
    var last, after := AllPass(d, n);
    ExecAppend(s, schedule, d, last);
    schedule, s' := schedule + last, after;
    AfterUneven(s, s', a, b);
  }

  lemma AfterUneven(s: State, s': State, a: TaskId, b: TaskId)
    requires AtLeastTwice(s) && a < |s.tasks| && b < |s.tasks| && |s.tasks[a].todo| >= 6 && |s'.tasks| == |s.tasks|
    requires Sized(s') && NobodyQueued(s'.q) && s'.expected == s'.initial == |s.tasks|
    requires |s'.arrived| == s'.phase + 1 && s'.arrived[s'.phase] == 0
    requires forall t :: 0 <= t < |s.tasks| ==>
               s'.tasks[t] == Task(if t == a then s.tasks[t].todo[6..] else if t == b then s.tasks[t].todo[2..]
                                   else s.tasks[t].todo[4..], Ready, None)
    ensures Quiet(s')
  {
    forall t | 0 <= t < |s.tasks|
      ensures IsLoop(s'.tasks[t].todo) && (s'.tasks[t].todo == [] || s'.tasks[t].todo[0] == Arrive(1))
    {
      var todo := s.tasks[t].todo;
      LoopTail(todo);
      LoopTail(todo[2..]);
      assert todo[2..][2..] == todo[4..];
      if t == a {
        LoopTail(todo[4..]);
        assert todo[4..][2..] == todo[6..];
      }
    }
  }

  // Who comes to the end

  lemma LoopsAre(s: State, rounds: seq<nat>)
    requires Loops(s, rounds)
    ensures Quiet(s) && forall t :: 0 <= t < |rounds| ==> |s.tasks[t].todo| == 2 * rounds[t]
  {
    forall t: nat | t < |rounds|
      ensures IsLoop(s.tasks[t].todo) && |s.tasks[t].todo| == 2 * rounds[t]
      ensures s.tasks[t].todo == [] || s.tasks[t].todo[0] == Arrive(1)
    {
      RoundsAreLoop(rounds[t]);
      RoundsLength(rounds[t]);
    }
  }

  lemma LoopsArePair(s: State, rounds: seq<nat>, a: TaskId, b: TaskId)
    requires Loops(s, rounds) && a < |rounds| && b < |rounds| && a != b && 3 <= rounds[a]
    requires forall t :: 0 <= t < |rounds| ==> 2 <= rounds[t]
    ensures Pair(s, a, b) && AtLeastTwice(s) && |s.tasks[a].todo| >= 6
  {
    LoopsAre(s, rounds);
    LoopBegins(s, rounds, a);
  }

  /** As many rounds for everybody, and no more than two. */
  predicate FinishRounds(rounds: seq<nat>) {
    || |rounds| <= 1
    || (rounds[0] <= 2 && forall t :: 0 <= t < |rounds| ==> rounds[t] == rounds[0])
  }

  lemma SoloFinishes(run: seq<State>, rounds: seq<nat>)
    requires IsRun(Init, AnySteps, run) && Loops(run[0], rounds) && |rounds| == 1 && Stuck(run[|run| - 1])
    ensures AllDone(run[|run| - 1])
  {
    SoloStart(run[0], rounds);
    forall s, s' | SoloInv(s) && AnySteps(s, s') ensures SoloInv(s') {
      OnlyTask(s, s');
      SoloStep(s, s');
    }
    InvariantHolds(Init, AnySteps, SoloInv, run);
    StuckExactly(run[|run| - 1]);
    assert Finished(run[|run| - 1].tasks[0]);
  }

  /** Where nobody has anything to do there is only one state. */
  lemma IdleRun(run: seq<State>)
    requires IsRun(Init, AnySteps, run) && forall t :: 0 <= t < |run[0].tasks| ==> run[0].tasks[t].todo == []
    ensures |run| == 1 && AllDone(run[0])
  {
    if |run| > 1 {
      NothingToDo(run[0], run[1]);
    }
  }

  lemma NothingToDo(s: State, s': State)
    requires Init(s) && forall t :: 0 <= t < |s.tasks| ==> s.tasks[t].todo == []
    ensures !AnySteps(s, s')
  {
  }

  lemma FinishingRunsFinish(run: seq<State>, rounds: seq<nat>)
    requires IsRun(Init, AnySteps, run) && Loops(run[0], rounds) && FinishRounds(rounds) && Stuck(run[|run| - 1])
    ensures AllDone(run[|run| - 1])
  {
    LoopsAre(run[0], rounds);
    if |rounds| == 0 || rounds[0] == 0 {
      if |rounds| != 1 {
        IdleRun(run);
      } else {
        SoloFinishes(run, rounds);
      }
    } else if |rounds| == 1 {
      SoloFinishes(run, rounds);
    } else {
      SumAtMost(rounds, 1, Mosts(1));
      LoopRun(run, rounds);
      EvenStuckIsDone(run[|run| - 1], rounds, rounds[0]);
    }
  }

  /** With three rounds or more for everybody, or with unequal rounds, somebody can end asleep. */
  lemma LoopStrands(s: State, rounds: seq<nat>) returns (run: seq<State>)
    requires Loops(s, rounds) && !FinishRounds(rounds)
    ensures IsRun(Init, AnySteps, run) && run[0] == s
    ensures Stuck(run[|run| - 1]) && !AllDone(run[|run| - 1])
  {
    LoopsAre(s, rounds);
    var schedule, last := [], s;
    if u: TaskId :| u < |rounds| && rounds[u] != rounds[0] {
      var a, b := if rounds[u] < rounds[0] then 0 else u, if rounds[u] < rounds[0] then u else 0;
      schedule, last := UnevenStrands(s, a, b);
    } else {
      LoopsArePair(s, rounds, 0, 1);
      var m, more;
      schedule, m := ReachesUneven(s, 0, 1);
      more, last := UnevenStrands(m, 1, 0);
      ExecAppend(s, schedule, m, more);
      schedule := schedule + more;
    }
    run := ExecIsRun(s, schedule, last);
  }

  /** The exact condition for coming to the end: every run that cannot go on has all rounds done
      just when there is one task at most, or all do the same number of rounds and that is at
      most two. */
  lemma LoopsFinishExactly(s: State, rounds: seq<nat>)
    requires Loops(s, rounds)
    ensures FinishRounds(rounds) <==>
              forall run :: IsRun(Init, AnySteps, run) && run[0] == s && Stuck(run[|run| - 1]) ==>
                AllDone(run[|run| - 1])
  {
    if FinishRounds(rounds) {
      forall run | IsRun(Init, AnySteps, run) && run[0] == s && Stuck(run[|run| - 1]) ensures AllDone(run[|run| - 1]) {
        FinishingRunsFinish(run, rounds);
      }
    } else {
      var run := LoopStrands(s, rounds);
    }
  }

  /** In particular, n tasks that do r rounds each always finish just when n <= 1 or r <= 2. */
  lemma EqualRoundsFinishExactly(s: State, n: nat, r: nat)
    requires Loops(s, seq(n, _ => r))
    ensures (n <= 1 || r <= 2) <==>
              forall run :: IsRun(Init, AnySteps, run) && run[0] == s && Stuck(run[|run| - 1]) ==>
                AllDone(run[|run| - 1])
  {
    var rounds := seq(n, _ => r);
    LoopsFinishExactly(s, rounds);
    if n > 1 {
      assert rounds[0] == r;
    }
  }
}
