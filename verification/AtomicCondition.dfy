/** The atomic condition: tasks wait for the value to differ from one they name, others store
    values and notify everybody. */
module AtomicCondition {
  import opened TaskSums
  import opened Runs
  import opened WaitProtocol

  /** `Set(v)` stores v and then calls notify_all. */
  datatype Job = Wait(seen: int) | Set(value: int)

  datatype Pc =
    | Ready                            // between two calls
    | Load(seen: int)                   // at the head of wait's loop
    | Waiting(seen: int, phase: Phase)  // inside wait_if
    | Notify                           // stored, notify_all still owed
    | Waking                           // inside do_resume_all

  datatype Task = Task(todo: seq<Job>, pc: Pc)

  datatype State = State(value: int, q: Waiters, tasks: seq<Task>)

  function SetPc(tasks: seq<Task>, t: TaskId, pc: Pc): seq<Task> {
    if t < |tasks| then tasks[t := tasks[t].(pc := pc)] else tasks
  }

  /** A task resumed from wait_if goes round the loop again. */
  function Resumed(tasks: seq<Task>, w: TaskId): seq<Task> {
    if w < |tasks| && tasks[w].pc.Waiting? then SetPc(tasks, w, Load(tasks[w].pc.seen)) else tasks
  }

  function Next(s: State, t: TaskId): Option<State>
    requires t < |s.tasks| == |s.q.local|
  {
    match s.tasks[t].pc
    case Ready =>
      if s.tasks[t].todo == [] then None
      else
        var rest := s.tasks[t].todo[1..];
        (match s.tasks[t].todo[0]
         case Wait(seen) => Some(s.(tasks := s.tasks[t := Task(rest, Load(seen))]))
         case Set(v) => Some(s.(value := v, tasks := s.tasks[t := Task(rest, Notify)])))
    case Load(seen) => Some(s.(tasks := SetPc(s.tasks, t, if s.value != seen then Ready else Waiting(seen, FastPath))))
    case Waiting(seen, phase) =>
      (match WaitIf(s.q, t, phase, s.value == seen)
       case Blocked => None
       case Continue(q, p) => Some(s.(q := q, tasks := SetPc(s.tasks, t, Waiting(seen, p))))
       case Return(q) => Some(s.(q := q, tasks := SetPc(s.tasks, t, Load(seen)))))
    case Notify =>
      (match TakeAll(s.q, t)
       case None => None
       case Some(q) => Some(s.(q := q, tasks := SetPc(s.tasks, t, Waking))))
    case Waking =>
      if s.q.local[t] == [] then Some(s.(tasks := SetPc(s.tasks, t, Ready)))
      else Some(s.(q := DropFront(s.q, t), tasks := Resumed(s.tasks, s.q.local[t][0])))
  }

  // The invariant

  function PhaseOf(task: Task): Option<Phase> {
    if task.pc.Waiting? then Some(task.pc.phase) else None
  }

  function PhasesOf(tasks: seq<Task>): Phases {
    seq(|tasks|, i requires 0 <= i < |tasks| => PhaseOf(tasks[i]))
  }

  predicate NotifyPending(s: State) {
    exists t :: 0 <= t < |s.tasks| && s.tasks[t].pc == Notify
  }

  /** In the queue, or past the re-check and about to be. */
  predicate Queued(s: State, t: TaskId)
    requires t < |s.tasks|
  {
    t in s.q.main || (s.tasks[t].pc.Waiting? && s.tasks[t].pc.phase == Pushing)
  }

  ghost predicate QueueOk(s: State) {
    && WaitInv(s.q, PhasesOf(s.tasks))
    && forall t :: 0 <= t < |s.tasks| && s.q.local[t] != [] ==> s.tasks[t].pc == Waking
  }

  /** Whoever is queued waits for the value that is there, or a notification is on its way. */
  predicate WaitersServed(s: State) {
    NotifyPending(s) ||
    forall t: TaskId :: t < |s.tasks| && Queued(s, t) && s.tasks[t].pc.Waiting? ==> s.value == s.tasks[t].pc.seen
  }

  ghost predicate Inv(s: State) {
    QueueOk(s) && WaitersServed(s)
  }

  ghost predicate Init(s: State) {
    s.q == NoWaiters(|s.tasks|) && forall t :: 0 <= t < |s.tasks| ==> s.tasks[t].pc == Ready
  }

  lemma InitHasInv(s: State)
    requires Init(s)
    ensures Inv(s)
  {
    NoWaitersInv(PhasesOf(s.tasks));
  }

  predicate Sized(s: State) {
    |s.tasks| == |s.q.local|
  }

  predicate IsParkedTask(task: Task) {
    task.pc.Waiting? && task.pc.phase == Parked
  }

  /** The task about to be resumed by `t` is parked, and is not `t`. */
  predicate WokenOk(s: State, t: TaskId)
    requires Sized(s) && t < |s.tasks|
  {
    s.q.local[t] != [] ==>
      && s.tasks[t].pc == Waking
      && var w := s.q.local[t][0]; w < |s.tasks| && w != t && IsParkedTask(s.tasks[w])
  }

  lemma WokenTaskWaits(s: State, t: TaskId)
    requires QueueOk(s) && t < |s.tasks|
    ensures WokenOk(s, t)
  {
    if s.q.local[t] != [] {
      WakeKeepsInv(s.q, PhasesOf(s.tasks), t);
    }
  }

  lemma PhasesSet(tasks: seq<Task>, t: TaskId, task: Task)
    requires t < |tasks|
    ensures PhasesOf(tasks[t := task]) == PhasesOf(tasks)[t := PhaseOf(task)]
    ensures PhaseOf(task) == PhaseOf(tasks[t]) ==> PhasesOf(tasks[t := task]) == PhasesOf(tasks)
  {
  }

  lemma WaitQueueShape(s: State, t: TaskId, s': State)
    requires Sized(s) && t < |s.tasks| && s.tasks[t].pc.Waiting? && Next(s, t) == Some(s')
    ensures |s'.tasks| == |s.tasks| && s'.tasks == s.tasks[t := s'.tasks[t]] && s'.tasks[t].pc != Waking
    ensures s'.q.local == s.q.local && PhaseOf(s.tasks[t]) == Some(s.tasks[t].pc.phase)
    ensures match WaitIf(s.q, t, s.tasks[t].pc.phase, s.value == s.tasks[t].pc.seen)
            case Blocked => false
            case Continue(q, p) => s'.q == q && PhaseOf(s'.tasks[t]) == Some(p)
            case Return(q) => s'.q == q && PhaseOf(s'.tasks[t]) == None
  {
  }

  lemma WaitQueueOk(s: State, t: TaskId, s': State)
    requires QueueOk(s) && t < |s.tasks| && s.tasks[t].pc.Waiting? && Next(s, t) == Some(s')
    ensures QueueOk(s')
  {
    WaitQueueShape(s, t, s');
    PhasesSet(s.tasks, t, s'.tasks[t]);
    WaitIfKeepsInv(s.q, PhasesOf(s.tasks), t, s.value == s.tasks[t].pc.seen);
  }

  lemma NotifyQueueOk(s: State, t: TaskId, s': State)
    requires QueueOk(s) && t < |s.tasks| && s.tasks[t].pc == Notify && Next(s, t) == Some(s')
    ensures QueueOk(s')
  {
    PhasesSet(s.tasks, t, s'.tasks[t]);
    TakeKeepsInv(s.q, PhasesOf(s.tasks), t, |s.q.main|);
  }

  lemma WakeQueueOk(s: State, t: TaskId, s': State)
    requires QueueOk(s) && t < |s.tasks| && s.q.local[t] != [] && Next(s, t) == Some(s')
    ensures QueueOk(s')
  {
    WokenTaskWaits(s, t);
    var w := s.q.local[t][0];
    PhasesSet(s.tasks, w, s'.tasks[w]);
    WakeKeepsInv(s.q, PhasesOf(s.tasks), t);
  }

  lemma NextQueueOk(s: State, t: TaskId, s': State)
    requires QueueOk(s) && t < |s.tasks| && Next(s, t) == Some(s')
    ensures QueueOk(s')
  {
    if s.tasks[t].pc.Waiting? {
      WaitQueueOk(s, t, s');
    } else if s.tasks[t].pc == Notify {
      NotifyQueueOk(s, t, s');
    } else if s.q.local[t] != [] {
      WakeQueueOk(s, t, s');
    } else {
      PhasesSet(s.tasks, t, s'.tasks[t]);
      if s'.tasks[t].pc.Waiting? {
        EnterKeepsInv(s.q, PhasesOf(s.tasks), t);
      }
    }
  }

  /** What a step does to the queue, the value and the acting task. */
  lemma ActorEffect(s: State, t: TaskId, s': State)
    requires Sized(s) && t < |s.tasks| && WokenOk(s, t) && Next(s, t) == Some(s')
    ensures |s'.tasks| == |s.tasks|
    ensures s'.value != s.value ==> s'.tasks[t].pc == Notify
    ensures s.tasks[t].pc == Notify ==> s'.q.main == [] && s.q.owner == None
    ensures s.tasks[t].pc != Notify ==>
              s'.q.main == s.q.main
              || (s'.q.main == s.q.main + [t] && s.tasks[t].pc.Waiting? && s.tasks[t].pc.phase == Pushing
                  && s'.tasks[t].pc == Waiting(s.tasks[t].pc.seen, Parked))
    ensures s'.tasks[t].pc.Waiting? && s'.tasks[t].pc.phase == Pushing ==>
              s.tasks[t].pc.Waiting? && s.value == s.tasks[t].pc.seen == s'.tasks[t].pc.seen
  {
  }

  lemma OthersStay(s: State, t: TaskId, s': State, u: TaskId)
    requires Sized(s) && t < |s.tasks| && WokenOk(s, t) && Next(s, t) == Some(s')
    requires u < |s.tasks| && u != t
    ensures |s'.tasks| == |s.tasks|
    ensures s'.tasks[u] == s.tasks[u]
            || (s.tasks[t].pc == Waking && IsParkedTask(s.tasks[u]) && s'.tasks[u].pc == Load(s.tasks[u].pc.seen)
                && s'.tasks[u].todo == s.tasks[u].todo)
  {
  }

  lemma QueuedServed(s: State, t: TaskId, s': State, u: TaskId)
    requires Inv(s) && t < |s.tasks| && Next(s, t) == Some(s') && u < |s.tasks| == |s'.tasks|
    requires !NotifyPending(s') && Queued(s', u) && s'.tasks[u].pc.Waiting?
    ensures s'.value == s'.tasks[u].pc.seen
  {
    WokenTaskWaits(s, t);
    ActorEffect(s, t, s');
    assert s'.tasks[t].pc != Notify;
    if u != t {
      OthersStay(s, t, s', u);
    }
    if s.tasks[t].pc == Notify {
      NobodyHoldsFreeLock(s.q, PhasesOf(s.tasks), u);
    } else {
      forall v: TaskId | v < |s.tasks| ensures s.tasks[v].pc != Notify {
        if v != t {
          OthersStay(s, t, s', v);
          assert s'.tasks[v].pc != Notify;
        }
      }
      if u == t && t in s.q.main {
        ListedIsParked(s.q, PhasesOf(s.tasks), t);
      }
    }
  }

  lemma NextKeepsInv(s: State, t: TaskId, s': State)
    requires Inv(s) && t < |s.tasks| && Next(s, t) == Some(s')
    ensures Inv(s')
  {
    WokenTaskWaits(s, t);
    NextQueueOk(s, t, s');
    ActorEffect(s, t, s');
    if !NotifyPending(s') {
      forall u: TaskId | u < |s'.tasks| && Queued(s', u) && s'.tasks[u].pc.Waiting?
        ensures s'.value == s'.tasks[u].pc.seen
      {
        QueuedServed(s, t, s', u);
      }
    }
  }

  // Runs

  ghost predicate Steps(s: State, s': State) {
    Sized(s) && exists t: TaskId :: t < |s.tasks| && Next(s, t) == Some(s')
  }

  lemma RunHasInv(run: seq<State>)
    requires IsRun(Init, Steps, run)
    ensures Preserved(Steps, Inv) && forall i :: 0 <= i < |run| ==> Inv(run[i])
  {
    InitHasInv(run[0]);
    forall s, s' | Inv(s) && Steps(s, s') ensures Inv(s') {
      var t: TaskId :| t < |s.tasks| && Next(s, t) == Some(s');
      NextKeepsInv(s, t, s');
    }
    InvariantHolds(Init, Steps, Inv, run);
  }

  predicate WaitsFor(pc: Pc, seen: int) {
    (pc.Load? || pc.Waiting?) && pc.seen == seen
  }

  /** wait(seen) is left only in a step that finds a different value, whatever the value was
      in between and however often the task was woken in vain. */
  lemma ReturnsOnlyOnDifference(run: seq<State>, i: nat, t: TaskId, seen: int)
    requires IsRun(Init, Steps, run) && i + 1 < |run| && t < |run[i].tasks|
    requires WaitsFor(run[i].tasks[t].pc, seen)
    ensures |run[i + 1].tasks| == |run[i].tasks|
    ensures WaitsFor(run[i + 1].tasks[t].pc, seen) || (run[i].value != seen && run[i + 1].tasks[t].pc == Ready)
  {
    RunHasInv(run);
    var s, s' := run[i], run[i + 1];
    assert Steps(s, s');
    var u: TaskId :| u < |s.tasks| && Next(s, u) == Some(s');
    WokenTaskWaits(s, u);
    if t != u {
      OthersStay(s, u, s', t);
    }
  }

  /** The run from a to b is one call of wait(seen) by task t, from the step that begins it to the
      first state in which it has returned. */
  ghost predicate IsWaitCall(run: seq<State>, a: nat, b: nat, t: TaskId, seen: int) {
    && a < b < |run| && t < |run[a].tasks| && run[a].tasks[t].pc == Ready
    && run[a].tasks[t].todo != [] && run[a].tasks[t].todo[0] == Wait(seen)
    && (forall i :: a < i <= b ==> t < |run[i].tasks| && run[i].tasks[t].todo == run[a].tasks[t].todo[1..])
    && (forall i :: a < i < b ==> run[i].tasks[t].pc != Ready)
    && run[b].tasks[t].pc == Ready
  }

  lemma WaitBegins(s: State, s': State, t: TaskId, seen: int)
    requires QueueOk(s) && Steps(s, s') && t < |s.tasks| && s.tasks[t].pc == Ready
    requires s.tasks[t].todo != [] && s.tasks[t].todo[0] == Wait(seen)
    requires t < |s'.tasks| && s'.tasks[t].todo == s.tasks[t].todo[1..]
    ensures WaitsFor(s'.tasks[t].pc, seen)
  {
    var u: TaskId :| u < |s.tasks| && Next(s, u) == Some(s');
    WokenTaskWaits(s, u);
    if t != u {
      OthersStay(s, u, s', t);
    }
  }

  /** Every completed wait(seen) of every run has waited for seen to change, from its beginning, and
      returned on finding another value. */
  lemma WaitAnswered(run: seq<State>, a: nat, b: nat, t: TaskId, seen: int)
    requires IsRun(Init, Steps, run) && IsWaitCall(run, a, b, t, seen)
    ensures forall i :: a < i < b ==> WaitsFor(run[i].tasks[t].pc, seen)
    ensures run[b - 1].value != seen
  {
    RunHasInv(run);
    WaitBegins(run[a], run[a + 1], t, seen);
    forall i: nat | a < i < b && t < |run[i].tasks| && WaitsFor(run[i].tasks[t].pc, seen)
      ensures t < |run[i + 1].tasks|
      ensures WaitsFor(run[i + 1].tasks[t].pc, seen) || (run[i].value != seen && run[i + 1].tasks[t].pc == Ready)
    {
      ReturnsOnlyOnDifference(run, i, t, seen);
    }
    WaitedFor(run, a, b, t, seen);
  }

  lemma WaitedFor(run: seq<State>, a: nat, b: nat, t: TaskId, seen: int)
    requires IsWaitCall(run, a, b, t, seen) && WaitsFor(run[a + 1].tasks[t].pc, seen)
    requires forall i: nat :: a < i < b && t < |run[i].tasks| && WaitsFor(run[i].tasks[t].pc, seen) ==>
               && t < |run[i + 1].tasks|
               && (WaitsFor(run[i + 1].tasks[t].pc, seen) || (run[i].value != seen && run[i + 1].tasks[t].pc == Ready))
    ensures forall i :: a < i < b ==> WaitsFor(run[i].tasks[t].pc, seen)
    ensures run[b - 1].value != seen
  {
    KeptFrom(run, a + 1, b - 1, (s: State) => t < |s.tasks| && WaitsFor(s.tasks[t].pc, seen));
    var i := b - 1;
    assert WaitsFor(run[i].tasks[t].pc, seen) && run[i + 1].tasks[t].pc == Ready;
  }

  // What the value is

  /** In the step from s to s' some task makes a call that stores v. */
  predicate Stores(s: State, s': State, v: int) {
    exists t :: 0 <= t < |s.tasks| && StoresBy(s, s', t, v)
  }

  predicate StoresBy(s: State, s': State, t: TaskId, v: int) {
    && t < |s.tasks| == |s'.tasks| && s.tasks[t].pc == Ready && s.tasks[t].todo != []
    && s.tasks[t].todo[0] == Set(v) && s'.tasks[t].todo == s.tasks[t].todo[1..]
  }

  ghost predicate StoresNothing(s: State, s': State) {
    forall v :: !Stores(s, s', v)
  }

  /** Only what a step stores becomes the value. */
  ghost predicate ValueMoves(s: State, s': State) {
    (s'.value == s.value && StoresNothing(s, s')) || Stores(s, s', s'.value)
  }

  lemma StepStores(s: State, s': State)
    requires QueueOk(s) && Steps(s, s')
    ensures ValueMoves(s, s')
    ensures forall v :: Stores(s, s', v) ==> s'.value == v
  {
    var u: TaskId :| u < |s.tasks| && Next(s, u) == Some(s');
    WokenTaskWaits(s, u);
    forall t: TaskId, v | StoresBy(s, s', t, v) ensures t == u && s'.value == v {
      if t != u {
        OthersStay(s, u, s', t);
      }
    }
    if s'.value != s.value {
      assert StoresBy(s, s', u, s'.value);
    }
  }

  /** In every state of every run the value is the one that was stored last, or the first one if
      nothing has been stored: state l has it, and nothing is stored from there on. */
  lemma ValueIsLastStored(run: seq<State>, i: nat) returns (l: nat)
    requires IsRun(Init, Steps, run) && i < |run|
    ensures l <= i && forall j :: l <= j < i ==> StoresNothing(run[j], run[j + 1])
    ensures l == 0 ==> run[i].value == run[0].value
    ensures l > 0 ==> Stores(run[l - 1], run[l], run[i].value)
  {
    RunHasInv(run);
    forall j | 0 <= j < i ensures ValueMoves(run[j], run[j + 1]) {
      StepStores(run[j], run[j + 1]);
    }
    l := LastStore(run, i);
  }

  lemma {:induction false} LastStore(run: seq<State>, i: nat) returns (l: nat)
    requires i < |run| && forall j :: 0 <= j < i ==> ValueMoves(run[j], run[j + 1])
    ensures l <= i && forall j :: l <= j < i ==> StoresNothing(run[j], run[j + 1])
    ensures l == 0 ==> run[i].value == run[0].value
    ensures l > 0 ==> Stores(run[l - 1], run[l], run[i].value)
  {
    l := i;
    if i > 0 {
      var j := i - 1;
      assert ValueMoves(run[j], run[j + 1]);
      if !Stores(run[j], run[j + 1], run[j + 1].value) {
        l := LastStore(run, j);
      }
    }
  }

  // Final states

  predicate Finished(task: Task) {
    task.pc == Ready && task.todo == []
  }

  ghost predicate Stuck(s: State) {
    Sized(s) && forall t: TaskId :: t < |s.tasks| ==> Next(s, t) == None
  }

  lemma LockHolderSteps(s: State)
    requires Inv(s) && s.q.owner.Some?
    ensures s.q.owner.value < |s.tasks| && Next(s, s.q.owner.value).Some?
  {
    assert HoldsLock(PhasesOf(s.tasks)[s.q.owner.value]);
  }

  /** Nothing can move exactly when everybody is finished or asleep with its condition really
      unmet: the value is the one it waits to see changed. */
  lemma StuckExactly(s: State)
    requires Inv(s)
    ensures Stuck(s) <==>
      forall t :: 0 <= t < |s.tasks| ==> Finished(s.tasks[t]) || s.tasks[t].pc == Waiting(s.value, Parked)
  {
    if Stuck(s) {
      if s.q.owner.Some? {
        LockHolderSteps(s);
      }
      forall t: TaskId | t < |s.tasks|
        ensures Finished(s.tasks[t]) || IsParkedTask(s.tasks[t])
      {
        assert Next(s, t) == None;
      }
      AllInMain(s.q, PhasesOf(s.tasks));
      forall t: TaskId | t < |s.tasks| && IsParkedTask(s.tasks[t])
        ensures s.value == s.tasks[t].pc.seen
      {
        assert ParkedAt(PhasesOf(s.tasks), t);
        assert Queued(s, t);
      }
    }
  }

  // One value to wait for

  /** Everything the task will ever store is v. */
  predicate StoresOnly(v: int, task: Task) {
    forall j :: 0 <= j < |task.todo| && task.todo[j].Set? ==> task.todo[j].value == v
  }

  /** Task z stores first of all, and has not begun, or v has been stored. */
  predicate Comes(v: int, z: TaskId, s: State) {
    && z < |s.tasks| && (forall t :: 0 <= t < |s.tasks| ==> StoresOnly(v, s.tasks[t]))
    && (s.value == v || (s.tasks[z].pc == Ready && s.tasks[z].todo != [] && s.tasks[z].todo[0] == Set(v)))
  }

  lemma OwnStore(v: int, s: State, u: TaskId, s': State)
    requires Sized(s) && u < |s.tasks| && WokenOk(s, u) && Next(s, u) == Some(s') && StoresOnly(v, s.tasks[u])
    ensures |s'.tasks| == |s.tasks| && StoresOnly(v, s'.tasks[u]) && s'.value in {s.value, v}
    ensures s.tasks[u].pc == Ready && s.tasks[u].todo != [] && s.tasks[u].todo[0] == Set(v) ==> s'.value == v
  {
  }

  lemma StepComes(v: int, z: TaskId, s: State, s': State)
    requires QueueOk(s) && Steps(s, s') && Comes(v, z, s)
    ensures Comes(v, z, s')
  {
    var u: TaskId :| u < |s.tasks| && Next(s, u) == Some(s');
    WokenTaskWaits(s, u);
    assert StoresOnly(v, s.tasks[u]);
    OwnStore(v, s, u, s');
    forall t: TaskId | t < |s.tasks| && t != u
      ensures StoresOnly(v, s'.tasks[t])
      ensures s.tasks[t].pc == Ready ==> s'.tasks[t] == s.tasks[t]
    {
      assert StoresOnly(v, s.tasks[t]);
      OthersStay(s, u, s', t);
    }
  }

  /** If v is all that is ever stored, and somebody's first call stores it, then at the end v is the
      value, and whoever waits to see another value change has come through: only those sleep that
      wait to see v itself change. */
  lemma StoredValueWakes(run: seq<State>, v: int, z: TaskId)
    requires IsRun(Init, Steps, run) && Stuck(run[|run| - 1])
    requires z < |run[0].tasks| && run[0].tasks[z].todo != [] && run[0].tasks[z].todo[0] == Set(v)
    requires forall t :: 0 <= t < |run[0].tasks| ==> StoresOnly(v, run[0].tasks[t])
    ensures var last := run[|run| - 1];
            && last.value == v
            && forall t :: 0 <= t < |last.tasks| ==> Finished(last.tasks[t]) || last.tasks[t].pc == Waiting(v, Parked)
  {
    RunHasInv(run);
    var inv := (s: State) => Inv(s) && Comes(v, z, s);
    forall s, s' | inv(s) && Steps(s, s') ensures inv(s') {
      StepComes(v, z, s, s');
    }
    InvariantHolds(Init, Steps, inv, run);
    StuckExactly(run[|run| - 1]);
  }

  // Termination

  function PcWork(pc: Pc, n: int): int {
    match pc
    case Ready => 0
    case Notify => n + 2
    case _ => 1
  }

  function TaskWork(n: int): Task -> int {
    (task: Task) => (n + 3) * |task.todo| + PcWork(task.pc, n)
  }

  function PcRank(pc: Pc, value: int): int {
    match pc
    case Load(seen) => LoadRank(value != seen)
    case Waiting(seen, phase) => PhaseRank(phase, value != seen)
    case _ => 0
  }

  function TaskRank(value: int): Task -> int {
    (task: Task) => PcRank(task.pc, value)
  }

  function TotalWork(s: State): int {
    Sum(s.tasks, TaskWork(|s.tasks|)) + Sum(s.q.local, Length)
  }

  function TotalRank(s: State): int {
    Sum(s.tasks, TaskRank(s.value))
  }

  function Measure(s: State): int {
    TotalWork(s) * (6 * |s.tasks| + 1) + TotalRank(s)
  }

  ghost predicate Lowers(s: State, s': State) {
    || TotalWork(s') < TotalWork(s)
    || (TotalWork(s') == TotalWork(s) && s'.value == s.value && TotalRank(s') < TotalRank(s))
  }

  lemma WakeLowers(s: State, t: TaskId, s': State)
    requires Sized(s) && t < |s.tasks| && WokenOk(s, t) && s.q.local[t] != [] && Next(s, t) == Some(s')
    ensures Lowers(s, s')
  {
    var w := s.q.local[t][0];
    SumUpdate(s.tasks, w, s'.tasks[w], TaskWork(|s.tasks|));
    SumUpdate(s.q.local, t, s.q.local[t][1..], Length);
  }

  lemma NotifyLowers(s: State, t: TaskId, s': State)
    requires Sized(s) && t < |s.tasks| && s.q.local[t] == [] && s.tasks[t].pc == Notify
    requires Next(s, t) == Some(s') && |s.q.main| <= |s.tasks|
    ensures Lowers(s, s')
  {
    SumUpdate(s.tasks, t, s'.tasks[t], TaskWork(|s.tasks|));
    SumUpdate(s.q.local, t, s'.q.local[t], Length);
  }

  lemma OneJobLess(n: nat, task: Task, task': Task)
    requires |task'.todo| == |task.todo| - 1
    ensures TaskWork(n)(task') - PcWork(task'.pc, n) == TaskWork(n)(task) - PcWork(task.pc, n) - (n + 3)
  {
    assert (n + 3) * |task.todo| == (n + 3) * |task'.todo| + (n + 3);
  }

  lemma CallLowers(s: State, t: TaskId, s': State)
    requires Sized(s) && t < |s.tasks| && s.tasks[t].pc == Ready && Next(s, t) == Some(s')
    ensures Lowers(s, s')
  {
    SumUpdate(s.tasks, t, s'.tasks[t], TaskWork(|s.tasks|));
    OneJobLess(|s.tasks|, s.tasks[t], s'.tasks[t]);
  }

  lemma WaitLowers(s: State, t: TaskId, s': State)
    requires Sized(s) && t < |s.tasks| && s.q.local[t] == [] && Next(s, t) == Some(s')
    requires s.tasks[t].pc != Ready && s.tasks[t].pc != Notify
    ensures Lowers(s, s')
  {
    SumUpdate(s.tasks, t, s'.tasks[t], TaskWork(|s.tasks|));
    SumUpdate(s.tasks, t, s'.tasks[t], TaskRank(s.value));
  }

  lemma RankBounds(s: State)
    ensures 0 <= TotalRank(s) <= 6 * |s.tasks|
  {
    SumNonNegative(s.tasks, TaskRank(s.value));
    SumAtMost(s.tasks, 6, TaskRank(s.value));
  }

  lemma StepLowersMeasure(s: State, t: TaskId, s': State)
    requires Inv(s) && t < |s.tasks| && Next(s, t) == Some(s')
    ensures Measure(s') < Measure(s)
  {
    WokenTaskWaits(s, t);
    if s.q.local[t] != [] {
      WakeLowers(s, t, s');
    } else if s.tasks[t].pc == Notify {
      SumAtMost(PhasesOf(s.tasks), 1, IsParked);
      SumNonNegative(s.q.local, Length);
      NotifyLowers(s, t, s');
    } else if s.tasks[t].pc == Ready {
      CallLowers(s, t, s');
    } else {
      WaitLowers(s, t, s');
    }
    RankBounds(s);
    RankBounds(s');
    ActorEffect(s, t, s');
    LexicographicLowers(TotalWork(s), TotalRank(s), TotalWork(s'), TotalRank(s'), |s.tasks|);
  }

  lemma MeasureNonNegative(s: State)
    ensures 0 <= Measure(s)
  {
    SumNonNegative(s.tasks, TaskWork(|s.tasks|));
    SumNonNegative(s.q.local, Length);
    RankBounds(s);
  }

  lemma StepsLowerMeasure()
    ensures Decreasing(Steps, Inv, Measure)
  {
    forall s, s' | Inv(s) && Steps(s, s') ensures Measure(s') < Measure(s) {
      var t: TaskId :| t < |s.tasks| && Next(s, t) == Some(s');
      StepLowersMeasure(s, t, s');
    }
  }

  /** Every run ends, so every sleeper is woken or its condition stays unmet. */
  lemma RunsAreFinite(run: seq<State>)
    requires IsRun(Init, Steps, run)
    ensures |run| - 1 <= Measure(run[0])
  {
    RunHasInv(run);
    StepsLowerMeasure();
    RunIsBounded(Init, Steps, Inv, Measure, run);
    MeasureNonNegative(run[|run| - 1]);
  }
}
