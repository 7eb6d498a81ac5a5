/** The barrier.  Its counts are right in runs in which every arrival, when it begins, fits what
    the phase still expects; that nobody leaves a phase early takes more, namely that no arrival
    for the next phase begins before the last arriver of the current one has returned from
    arrive().  Both are conditions on steps, which a caller cannot see to: a task that is woken
    early arrives in good faith.  BarrierLoops, BarrierCounts, BarrierOverdraft, BarrierEarly and
    BarrierStrands say which programs meet them by themselves.
    The phase is an unbounded number here; the code stores it modulo 256. */
module Barrier {
  import opened TaskSums
  import opened Runs
  import opened WaitProtocol

  /** `arrive_and_wait` is Arrive(1) followed by Wait. */
  datatype Job = Arrive(update: nat) | ArriveAndDrop | Wait

  /** Stages of the last arriver, after its decrement has reached zero. */
  datatype Stage = RunCompletion | LoadInitial | StoreExpected(next: int) | StorePhase | Notify | Waking

  datatype Pc =
    | Ready                                // between two calls
    | Dropped                              // arrive_and_drop has lowered the initial count
    | Loaded(update: nat, phase: nat)      // arrive has loaded the phase
    | Last(stage: Stage, phase: nat)       // the last arriver of its phase
    | Testing(phase: nat)                  // wait, about to load the phase
    | Waiting(phase: nat, at: Phase)       // inside wait_if

  /** `token` is what the last arrive returned. */
  datatype Task = Task(todo: seq<Job>, pc: Pc, token: Option<nat>)

  /** History: `arrived[k]` and `opens[k]` are the updates made in phase k and the count it
      opens with; `completions` and `drops` count what their names say. */
  datatype State = State(
    expected: int, initial: int, phase: nat, q: Waiters, tasks: seq<Task>,
    arrived: seq<int>, opens: seq<int>, completions: nat, drops: nat)

  function SetPc(tasks: seq<Task>, t: TaskId, pc: Pc): seq<Task> {
    if t < |tasks| then tasks[t := tasks[t].(pc := pc)] else tasks
  }

  function Goto(s: State, t: TaskId, pc: Pc): State {
    s.(tasks := SetPc(s.tasks, t, pc))
  }

  function Return(s: State, t: TaskId, token: Option<nat>): State
    requires t < |s.tasks|
  {
    s.(tasks := s.tasks[t := Task(s.tasks[t].todo, Ready, token)])
  }

  /** The stored phase is one byte. */
  function Byte(phase: nat): nat {
    phase % 256
  }

  /** The first comparison in wait: against the byte before, computed as an int, which is -1
      when the byte is 0. */
  predicate IsPrevious(token: nat, phase: nat) {
    Byte(token) == Byte(phase) - 1
  }

  function Call(s: State, t: TaskId): Option<State>
    requires t < |s.tasks|
  {
    var task := s.tasks[t];
    if task.todo == [] then None
    else
      var rest := task.todo[1..];
      match task.todo[0]
      case Arrive(n) => Some(s.(tasks := s.tasks[t := Task(rest, Loaded(n, s.phase), task.token)]))
      case ArriveAndDrop =>
        Some(s.(initial := s.initial - 1, drops := s.drops + 1, tasks := s.tasks[t := Task(rest, Dropped, task.token)]))
      case Wait =>
        if task.token.None? then None
        else Some(s.(tasks := s.tasks[t := Task(rest, Testing(task.token.value), None)]))
  }

  function LastNext(s: State, t: TaskId, stage: Stage, k: nat): Option<State>
    requires t < |s.tasks| == |s.q.local|
  {
    match stage
    case RunCompletion => Some(Goto(s, t, Last(LoadInitial, k)).(completions := s.completions + 1))
    case LoadInitial => Some(Goto(s, t, Last(StoreExpected(s.initial), k)))
    case StoreExpected(next) => Some(Goto(s, t, Last(StorePhase, k)).(expected := next))
    case StorePhase =>
      Some(Goto(s, t, Last(Notify, k)).(phase := k + 1, arrived := s.arrived + [0], opens := s.opens + [s.expected]))
    case Notify =>
      (match TakeAll(s.q, t)
       case None => None
       case Some(q) => Some(Goto(s, t, Last(Waking, k)).(q := q)))
    case Waking =>
      if s.q.local[t] == [] then Some(Return(s, t, Some(k)))
      else
        var w := s.q.local[t][0];
        Some(Goto(s, w, Ready).(q := DropFront(s.q, t)))
  }

  function Next(s: State, t: TaskId): Option<State>
    requires t < |s.tasks| == |s.q.local|
  {
    match s.tasks[t].pc
    case Ready => Call(s, t)
    case Dropped => Some(Goto(s, t, Loaded(1, s.phase)))
    case Loaded(n, k) =>
      var s1 := s.(expected := s.expected - n,
                   arrived := if k < |s.arrived| then s.arrived[k := s.arrived[k] + n] else s.arrived);
      Some(if s.expected == n then Goto(s1, t, Last(RunCompletion, k)) else Return(s1, t, Some(k)))
    case Last(stage, k) => LastNext(s, t, stage, k)
    case Testing(k) => Some(Goto(s, t, if IsPrevious(k, s.phase) then Ready else Waiting(k, FastPath)))
    case Waiting(k, at) =>
      (match WaitIf(s.q, t, at, Byte(s.phase) == Byte(k))
       case Blocked => None
       case Continue(q, p) => Some(Goto(s, t, Waiting(k, p)).(q := q))
       case Return(q) => Some(Goto(s, t, Ready).(q := q)))
  }

  // The client's side

  function Pending(task: Task): int {
    match task.pc
    case Dropped => 1
    case Loaded(n, _) => n
    case _ => 0
  }

  /** The new phase has been stored, and is being announced to the waiters. */
  predicate Announced(stage: Stage) {
    stage == Notify || stage == Waking
  }

  /** Has taken the count to zero and not yet stored the new phase. */
  function Opening(task: Task): int {
    if task.pc.Last? && !Announced(task.pc.stage) then 1 else 0
  }

  predicate IsAnnouncing(task: Task) {
    task.pc.Last? && Announced(task.pc.stage)
  }

  predicate AnnouncedNow(s: State) {
    exists t :: 0 <= t < |s.tasks| && IsAnnouncing(s.tasks[t])
  }

  function Update(job: Job): nat {
    match job
    case Arrive(n) => n
    case _ => 1
  }

  /** An arrival may begin if the updates under way leave room for it in the current phase,
      which has no room at all while it is being completed. */
  predicate MayArrive(s: State, update: nat) {
    && 0 < update <= s.expected - Sum(s.tasks, Pending)
    && Sum(s.tasks, Opening) == 0
  }

  function InWait(pc: Pc): Option<nat> {
    match pc
    case Testing(k) => Some(k)
    case Waiting(k, _) => Some(k)
    case _ => None
  }

  /** No wait is overtaken by 256 phases. */
  predicate TokensRecent(s: State) {
    forall t :: 0 <= t < |s.tasks| && InWait(s.tasks[t].pc).Some? ==> s.phase < InWait(s.tasks[t].pc).value + 256
  }

  predicate BeginsArrival(task: Task) {
    task.pc == Ready && task.todo != [] && !task.todo[0].Wait?
  }

  /** The preconditions of the interface, as a condition on the step: it looks at the arrivals of
      the other tasks as well. */
  predicate ClientAllows(s: State, t: TaskId)
    requires t < |s.tasks|
  {
    && TokensRecent(s)
    && (BeginsArrival(s.tasks[t]) ==> MayArrive(s, Update(s.tasks[t].todo[0])))
  }

  /** What it takes beyond them: no arrival begins while a phase is being announced. */
  predicate Careful(s: State, t: TaskId)
    requires t < |s.tasks|
  {
    BeginsArrival(s.tasks[t]) ==> !AnnouncedNow(s)
  }

  // The invariant

  function PhaseOf(task: Task): Option<Phase> {
    if task.pc.Waiting? then Some(task.pc.at) else None
  }

  function PhasesOf(tasks: seq<Task>): Phases {
    seq(|tasks|, i requires 0 <= i < |tasks| => PhaseOf(tasks[i]))
  }

  ghost predicate QueueOk(s: State) {
    && WaitInv(s.q, PhasesOf(s.tasks))
    && forall t :: 0 <= t < |s.tasks| && s.q.local[t] != [] ==> s.tasks[t].pc.Last? && s.tasks[t].pc.stage == Waking
  }

  /** What the state looks like while one task completes phase k. */
  predicate StageOk(s: State, stage: Stage, k: nat) {
    match stage
    case RunCompletion => s.expected == 0 && s.phase == k && s.completions == k
    case LoadInitial => s.expected == 0 && s.phase == k && s.completions == k + 1
    case StoreExpected(next) => s.expected == 0 && s.phase == k && s.completions == k + 1 && next == s.initial
    case StorePhase => s.expected == s.initial && s.phase == k && s.completions == k + 1
    case _ => k < s.phase
  }

  predicate HistoryOk(s: State) {
    && |s.arrived| == |s.opens| == s.phase + 1
    && (forall k :: 0 <= k < s.phase ==> s.arrived[k] == s.opens[k])
  }

  /** The counts of the open phase, with nobody completing it. */
  predicate OpenOk(s: State)
    requires HistoryOk(s)
  {
    && s.completions == s.phase
    && 0 <= s.arrived[s.phase] == s.opens[s.phase] - s.expected
    && (0 < s.arrived[s.phase] ==> 0 < s.expected)
    && Sum(s.tasks, Pending) <= s.expected
    && s.expected - Sum(s.tasks, Pending) <= s.initial
  }

  predicate LastOk(s: State, stage: Stage, k: nat)
    requires HistoryOk(s)
  {
    StageOk(s, stage, k) && (Announced(stage) || s.arrived[s.phase] == s.opens[s.phase])
  }

  /** Nobody else arrives while a phase is being completed, and one task at most completes it. */
  predicate CountsOk(s: State) {
    && HistoryOk(s) && 0 <= s.initial
    && 0 <= Sum(s.tasks, Opening) <= 1
    && (Sum(s.tasks, Opening) == 0 ==> OpenOk(s))
    && (Sum(s.tasks, Opening) == 1 ==> Sum(s.tasks, Pending) == 0)
    && forall t :: 0 <= t < |s.tasks| && s.tasks[t].pc.Last? ==>
         LastOk(s, s.tasks[t].pc.stage, s.tasks[t].pc.phase)
  }

  predicate IsNotify(task: Task) {
    task.pc.Last? && task.pc.stage == Notify
  }

  predicate NotifyPending(s: State) {
    exists t :: 0 <= t < |s.tasks| && IsNotify(s.tasks[t])
  }

  predicate SomebodyArrived(s: State) {
    s.phase < |s.arrived| && 0 < s.arrived[s.phase]
  }

  /** A token of a phase in which somebody has arrived. */
  predicate TokenOk(s: State, token: Option<nat>) {
    token.Some? ==>
      && token.value <= s.phase
      && (token.value == s.phase ==> SomebodyArrived(s))
  }

  predicate TaskOk(s: State, task: Task) {
    && (task.pc.Loaded? ==> task.pc.phase == s.phase && 0 < task.pc.update)
    && TokenOk(s, task.token) && TokenOk(s, InWait(task.pc))
    && (task.pc.Waiting? && task.pc.at == SelfResume ==> task.pc.phase < s.phase)
  }

  predicate TokensOk(s: State) {
    forall t :: 0 <= t < |s.tasks| ==> TaskOk(s, s.tasks[t])
  }

  /** In the queue, or past the re-check and about to be. */
  predicate Queued(s: State, t: TaskId)
    requires t < |s.tasks|
  {
    && s.tasks[t].pc.Waiting?
    && (t in s.q.main || s.tasks[t].pc.at == Pushing)
  }

  /** Whoever is queued waits for the open phase, or the broadcast of its own is on its way. */
  predicate WaitersServed(s: State) {
    NotifyPending(s) || forall t: TaskId :: t < |s.tasks| && Queued(s, t) ==> s.tasks[t].pc.phase == s.phase
  }

  ghost predicate Inv(s: State) {
    QueueOk(s) && CountsOk(s) && TokensOk(s) && WaitersServed(s)
  }

  ghost predicate Init(s: State) {
    && 0 <= s.expected == s.initial && s.phase == 0 && s.completions == 0 && s.drops == 0
    && s.arrived == [0] && s.opens == [s.expected]
    && s.q == NoWaiters(|s.tasks|)
    && forall t :: 0 <= t < |s.tasks| ==> s.tasks[t].pc == Ready && s.tasks[t].token == None
  }

  lemma InitHasInv(s: State)
    requires Init(s)
    ensures Inv(s)
  {
    NoWaitersInv(PhasesOf(s.tasks));
    SumZero(s.tasks, Opening);
    SumZero(s.tasks, Pending);
  }

  // The byte

  /** As long as the phase is not 256 ahead of the token, comparing bytes is comparing phases,
      and the fast path is taken only when the token's phase is over, though not always. */
  lemma BytesDecide(token: nat, phase: nat)
    requires token <= phase < token + 256
    ensures Byte(phase) == Byte(token) <==> phase == token
    ensures IsPrevious(token, phase) ==> token < phase
    ensures IsPrevious(token, phase) <==> phase == token + 1 && Byte(phase) != 0
  {
    var a, b := token / 256, phase / 256;
    assert token == 256 * a + Byte(token) && phase == 256 * b + Byte(phase);
    assert b == a || b == a + 1;
  }

  /** The assertion in wait, which is evaluated when the first comparison fails. */
  predicate AssertionHolds(token: nat, phase: nat) {
    IsPrevious(token, phase) || Byte(token) == Byte(phase)
  }

  /** It holds for the current phase, and for the one before unless the byte has wrapped to 0. */
  lemma AssertionExactly(token: nat, phase: nat)
    requires token <= phase < token + 256
    ensures AssertionHolds(token, phase) <==> phase == token || (phase == token + 1 && Byte(phase) != 0)
  {
    BytesDecide(token, phase);
  }

  /** In general, bytes agree exactly when the phases differ by a multiple of 256. */
  lemma BytesAgree(token: nat, phase: nat)
    requires token <= phase
    ensures Byte(phase) == Byte(token) <==> (phase - token) % 256 == 0
  {
    var a, b := token / 256, phase / 256;
    assert phase - token == 256 * (b - a) + (Byte(phase) - Byte(token));
  }

  // Queue

  predicate Sized(s: State) {
    |s.tasks| == |s.q.local|
  }

  predicate IsParkedTask(task: Task) {
    task.pc.Waiting? && task.pc.at == Parked
  }

  predicate IsWaking(task: Task) {
    task.pc.Last? && task.pc.stage == Waking
  }

  /** The task about to be resumed by `t` is parked, and is not `t`. */
  predicate WokenOk(s: State, t: TaskId)
    requires Sized(s) && t < |s.tasks|
  {
    s.q.local[t] != [] ==>
      && IsWaking(s.tasks[t])
      && var w := s.q.local[t][0]; w < |s.tasks| && w != t && IsParkedTask(s.tasks[w])
  }

  lemma WokenTaskWaits(s: State, t: TaskId)
    requires QueueOk(s) && t < |s.tasks|
    ensures WokenOk(s, t)
  {
    if s.q.local[t] != [] {
      WakeKeepsInv(s.q, PhasesOf(s.tasks), t);
    }
  }

  lemma PhasesSet(tasks: seq<Task>, t: TaskId, task: Task)
    requires t < |tasks|
    ensures PhasesOf(tasks[t := task]) == PhasesOf(tasks)[t := PhaseOf(task)]
    ensures PhaseOf(task) == PhaseOf(tasks[t]) ==> PhasesOf(tasks[t := task]) == PhasesOf(tasks)
  {
  }

  /** Which tasks a step changes, and how it uses the queue. */
  lemma StepShape(s: State, t: TaskId, s': State)
    requires Sized(s) && t < |s.tasks| && WokenOk(s, t) && Next(s, t) == Some(s')
    ensures |s'.tasks| == |s.tasks|
    ensures s.q.local[t] != [] ==>
              s' == s.(q := DropFront(s.q, t), tasks := SetPc(s.tasks, s.q.local[t][0], Ready))
    ensures s.q.local[t] == [] ==> s'.tasks == s.tasks[t := s'.tasks[t]]
    ensures s.q.local[t] == [] && !s.tasks[t].pc.Waiting? && !IsNotify(s.tasks[t]) ==>
              s'.q == s.q && (s'.tasks[t].pc.Waiting? ==> s'.tasks[t].pc.at == FastPath)
  {
  }

  lemma WaitQueueShape(s: State, t: TaskId, s': State)
    requires Sized(s) && t < |s.tasks| && s.tasks[t].pc.Waiting? && Next(s, t) == Some(s')
    ensures |s'.tasks| == |s.tasks| && s'.tasks == s.tasks[t := s'.tasks[t]] && !IsWaking(s'.tasks[t])
    ensures s'.q.local == s.q.local && PhaseOf(s.tasks[t]) == Some(s.tasks[t].pc.at)
    ensures match WaitIf(s.q, t, s.tasks[t].pc.at, Byte(s.phase) == Byte(s.tasks[t].pc.phase))
            case Blocked => false
            case Continue(q, p) => s'.q == q && PhaseOf(s'.tasks[t]) == Some(p)
            case Return(q) => s'.q == q && PhaseOf(s'.tasks[t]) == None
  {
  }

  lemma WaitQueueOk(s: State, t: TaskId, s': State)
    requires QueueOk(s) && t < |s.tasks| && s.tasks[t].pc.Waiting? && Next(s, t) == Some(s')
    ensures QueueOk(s')
  {
    WaitQueueShape(s, t, s');
    PhasesSet(s.tasks, t, s'.tasks[t]);
    WaitIfKeepsInv(s.q, PhasesOf(s.tasks), t, Byte(s.phase) == Byte(s.tasks[t].pc.phase));
  }

  lemma NotifyQueueOk(s: State, t: TaskId, s': State)
    requires QueueOk(s) && t < |s.tasks| && IsNotify(s.tasks[t]) && Next(s, t) == Some(s')
    ensures QueueOk(s') && s'.q.main == [] && s'.q.owner == None
    ensures s'.q.local == s.q.local[t := s.q.main] && s'.tasks == s.tasks[t := s'.tasks[t]]
  {
    PhasesSet(s.tasks, t, s'.tasks[t]);
    TakeKeepsInv(s.q, PhasesOf(s.tasks), t, |s.q.main|);
    assert s.q.main[..|s.q.main|] == s.q.main;
  }

  lemma WakeQueueOk(s: State, t: TaskId, s': State)
    requires QueueOk(s) && t < |s.tasks| && s.q.local[t] != [] && Next(s, t) == Some(s')
    ensures QueueOk(s')
  {
    WokenTaskWaits(s, t);
    var w := s.q.local[t][0];
    PhasesSet(s.tasks, w, s'.tasks[w]);
    WakeKeepsInv(s.q, PhasesOf(s.tasks), t);
  }

  lemma NextQueueOk(s: State, t: TaskId, s': State)
    requires QueueOk(s) && t < |s.tasks| && Next(s, t) == Some(s')
    ensures QueueOk(s')
  {
    WokenTaskWaits(s, t);
    StepShape(s, t, s');
    if s.tasks[t].pc.Waiting? {
      WaitQueueOk(s, t, s');
    } else if IsNotify(s.tasks[t]) {
      NotifyQueueOk(s, t, s');
    } else if s.q.local[t] != [] {
      WakeQueueOk(s, t, s');
    } else {
      PhasesSet(s.tasks, t, s'.tasks[t]);
      if s'.tasks[t].pc.Waiting? {
        EnterKeepsInv(s.q, PhasesOf(s.tasks), t);
      }
    }
  }

  // Counts

  lemma SumsSet(tasks: seq<Task>, t: TaskId, task: Task)
    requires t < |tasks|
    ensures Sum(tasks[t := task], Pending) == Sum(tasks, Pending) - Pending(tasks[t]) + Pending(task)
    ensures Sum(tasks[t := task], Opening) == Sum(tasks, Opening) - Opening(tasks[t]) + Opening(task)
  {
    SumUpdate(tasks, t, task, Pending);
    SumUpdate(tasks, t, task, Opening);
  }

  /** Only one task opens a phase, and meanwhile nobody is arriving. */
  lemma OpenerIsAlone(s: State, t: TaskId)
    requires CountsOk(s) && t < |s.tasks| && Opening(s.tasks[t]) == 1
    ensures Sum(s.tasks, Opening) == 1 && Sum(s.tasks, Pending) == 0
    ensures forall u :: 0 <= u < |s.tasks| && u != t ==> Opening(s.tasks[u]) == 0
  {
    SumAtLeast(s.tasks, t, Opening);
    forall u | 0 <= u < |s.tasks| && u != t ensures Opening(s.tasks[u]) == 0 {
      if u < t {
        SumAtLeastTwo(s.tasks, u, t, Opening);
      } else {
        SumAtLeastTwo(s.tasks, t, u, Opening);
      }
    }
  }

  lemma NobodyOpens(s: State)
    requires Sum(s.tasks, Opening) == 0
    ensures forall u :: 0 <= u < |s.tasks| ==> Opening(s.tasks[u]) == 0
  {
    forall u | 0 <= u < |s.tasks| ensures Opening(s.tasks[u]) == 0 {
      SumAtLeast(s.tasks, u, Opening);
    }
  }

  lemma CallCounts(s: State, t: TaskId, s': State)
    requires CountsOk(s) && t < |s.tasks| && s.tasks[t].pc == Ready && Call(s, t) == Some(s') && ClientAllows(s, t)
    ensures CountsOk(s')
  {
    SumsSet(s.tasks, t, s'.tasks[t]);
    if BeginsArrival(s.tasks[t]) {
      NobodyOpens(s);
    }
  }

  lemma ArriveCounts(s: State, t: TaskId, s': State)
    requires CountsOk(s) && Sized(s) && t < |s.tasks| && Next(s, t) == Some(s') && TaskOk(s, s.tasks[t])
    requires s.tasks[t].pc == Dropped || s.tasks[t].pc.Loaded?
    ensures CountsOk(s') && Sum(s.tasks, Opening) == 0
  {
    ArriveShape(s, t, s');
    ArrivedCounts(s, t, s');
  }

  /** A drop goes on to arrive, or an arrival is counted. */
  predicate Arrives(s: State, t: TaskId, s': State) {
    && t < |s.tasks| == |s'.tasks| && s.phase < |s.arrived|
    && var n := if s.tasks[t].pc.Loaded? then s.tasks[t].pc.update else 0;
    && s' == s.(expected := s.expected - n, arrived := s.arrived[s.phase := s.arrived[s.phase] + n],
                tasks := s.tasks[t := s'.tasks[t]])
    && (s.tasks[t].pc == Dropped ==> s'.tasks[t].pc == Loaded(1, s.phase))
    && (s.tasks[t].pc.Loaded? ==>
          s'.tasks[t].pc == if s.expected == n then Last(RunCompletion, s.phase) else Ready)
  }

  lemma ArrivedCounts(s: State, t: TaskId, s': State)
    requires CountsOk(s) && Arrives(s, t, s') && (s.tasks[t].pc.Loaded? ==> 0 < s.tasks[t].pc.update)
    requires s.tasks[t].pc == Dropped || s.tasks[t].pc.Loaded?
    ensures CountsOk(s') && Sum(s.tasks, Opening) == 0
  {
    SumsSet(s.tasks, t, s'.tasks[t]);
    SumAtLeast(s.tasks, t, Pending);
    SumNonNegative(s'.tasks, Pending);
    NobodyOpens(s);
  }

  lemma ArriveShape(s: State, t: TaskId, s': State)
    requires Sized(s) && t < |s.tasks| && Next(s, t) == Some(s') && s.phase < |s.arrived|
    requires s.tasks[t].pc == Dropped || (s.tasks[t].pc.Loaded? && s.tasks[t].pc.phase == s.phase)
    ensures Arrives(s, t, s')
  {
  }

  /** From one stage to the next, the last of them opening the new phase. */
  lemma StageMoves(s: State, t: TaskId, s': State)
    requires Sized(s) && t < |s.tasks| && Opening(s.tasks[t]) == 1 && HistoryOk(s)
    requires LastOk(s, s.tasks[t].pc.stage, s.tasks[t].pc.phase)
    requires LastNext(s, t, s.tasks[t].pc.stage, s.tasks[t].pc.phase) == Some(s')
    ensures |s'.tasks| == |s.tasks| && s'.tasks == s.tasks[t := s'.tasks[t]] && s'.tasks[t].pc.Last?
    ensures s'.initial == s.initial && s.phase <= s'.phase && HistoryOk(s')
    ensures LastOk(s', s'.tasks[t].pc.stage, s'.tasks[t].pc.phase)
    ensures Opening(s'.tasks[t]) == 0 ==>
              && s'.completions == s'.phase && s'.arrived[s'.phase] == 0
              && s'.opens[s'.phase] == s'.expected == s'.initial
  {
  }

  lemma OpenerCounts(s: State, t: TaskId, s': State)
    requires CountsOk(s) && Sized(s) && t < |s.tasks| && Opening(s.tasks[t]) == 1
    requires LastNext(s, t, s.tasks[t].pc.stage, s.tasks[t].pc.phase) == Some(s')
    ensures CountsOk(s')
  {
    StageMoves(s, t, s');
    SumsSet(s.tasks, t, s'.tasks[t]);
    OpenerIsAlone(s, t);
  }

  /** A step that touches no count. */
  lemma IdleCounts(s: State, u: TaskId, s': State)
    requires CountsOk(s) && u < |s.tasks| && Pending(s.tasks[u]) == 0 == Opening(s.tasks[u])
    requires |s'.tasks| == |s.tasks| && s' == s.(q := s'.q, tasks := s.tasks[u := s'.tasks[u]])
    requires Pending(s'.tasks[u]) == 0 == Opening(s'.tasks[u])
    requires s'.tasks[u].pc.Last? ==> s'.tasks[u].pc.phase < s.phase
    ensures CountsOk(s')
  {
    SumsSet(s.tasks, u, s'.tasks[u]);
  }

  lemma AnnouncerShape(s: State, t: TaskId, s': State)
    requires Sized(s) && t < |s.tasks| && IsAnnouncing(s.tasks[t]) && s.q.local[t] == [] && Next(s, t) == Some(s')
    ensures |s'.tasks| == |s.tasks| && s' == s.(q := s'.q, tasks := s.tasks[t := s'.tasks[t]])
    ensures s'.tasks[t].pc == Last(Waking, s.tasks[t].pc.phase) || s'.tasks[t].pc == Ready
  {
  }

  lemma WaitShape(s: State, t: TaskId, s': State)
    requires Sized(s) && t < |s.tasks| && InWait(s.tasks[t].pc).Some? && Next(s, t) == Some(s')
    ensures |s'.tasks| == |s.tasks|
    ensures s' == s.(q := s'.q, tasks := s.tasks[t := s'.tasks[t]])
    ensures s'.tasks[t].pc == Ready || (s'.tasks[t].pc.Waiting? && s'.tasks[t].pc.phase == InWait(s.tasks[t].pc).value)
    ensures s'.tasks[t].token == s.tasks[t].token
  {
  }

  lemma NextCounts(s: State, t: TaskId, s': State)
    requires Inv(s) && t < |s.tasks| && Next(s, t) == Some(s') && ClientAllows(s, t)
    ensures CountsOk(s')
  {
    WokenTaskWaits(s, t);
    StepShape(s, t, s');
    assert TaskOk(s, s.tasks[t]);
    match s.tasks[t].pc
    case Ready => CallCounts(s, t, s');
    case Dropped => ArriveCounts(s, t, s');
    case Loaded(_, _) => ArriveCounts(s, t, s');
    case Last(_, _) =>
      if s.q.local[t] != [] {
        IdleCounts(s, s.q.local[t][0], s');
      } else if IsAnnouncing(s.tasks[t]) {
        AnnouncerShape(s, t, s');
        IdleCounts(s, t, s');
      } else {
        OpenerCounts(s, t, s');
      }
    case Testing(_) =>
      WaitShape(s, t, s');
      IdleCounts(s, t, s');
    case Waiting(_, _) =>
      WaitShape(s, t, s');
      IdleCounts(s, t, s');
  }

  // Tokens

  /** Passing from s to s', tokens that were fine stay fine. */
  predicate PhaseMoves(s: State, s': State) {
    && s.phase <= s'.phase
    && (s.phase == s'.phase && SomebodyArrived(s) ==> SomebodyArrived(s'))
  }

  lemma TokenStays(s: State, s': State, token: Option<nat>)
    requires TokenOk(s, token) && PhaseMoves(s, s')
    ensures TokenOk(s', token)
  {
  }

  predicate IsStoring(task: Task) {
    task.pc.Last? && task.pc.stage == StorePhase
  }

  lemma StepPhase(s: State, t: TaskId, s': State)
    requires Sized(s) && t < |s.tasks| && Next(s, t) == Some(s')
    ensures s'.phase == if IsStoring(s.tasks[t]) then s.tasks[t].pc.phase + 1 else s.phase
    ensures !IsStoring(s.tasks[t]) && SomebodyArrived(s) ==> SomebodyArrived(s')
  {
  }

  lemma NextPhaseMoves(s: State, t: TaskId, s': State)
    requires QueueOk(s) && CountsOk(s) && t < |s.tasks| && Next(s, t) == Some(s')
    ensures PhaseMoves(s, s')
    ensures s'.phase == if IsStoring(s.tasks[t]) then s.phase + 1 else s.phase
  {
    StepPhase(s, t, s');
  }

  lemma WaiterToken(s: State, t: TaskId, s': State)
    requires QueueOk(s) && CountsOk(s) && t < |s.tasks| && TaskOk(s, s.tasks[t])
    requires s.tasks[t].pc.Waiting? && TokensRecent(s) && Next(s, t) == Some(s')
    ensures |s'.tasks| == |s.tasks| && TaskOk(s', s'.tasks[t]) && s'.phase == s.phase
    ensures s'.tasks[t].pc == Ready ==> s.tasks[t].pc.phase < s.phase
    ensures s'.tasks[t].pc.Waiting? && s'.tasks[t].pc.at == Pushing ==>
              s.tasks[t].pc.at == Recheck && s.tasks[t].pc.phase == s.phase
  {
    NextPhaseMoves(s, t, s');
    WaitShape(s, t, s');
    BytesDecide(s.tasks[t].pc.phase, s.phase);
    TokenStays(s, s', s.tasks[t].token);
    TokenStays(s, s', InWait(s.tasks[t].pc));
  }

  lemma CallToken(s: State, t: TaskId, s': State)
    requires t < |s.tasks| && TaskOk(s, s.tasks[t]) && PhaseMoves(s, s')
    requires s.tasks[t].pc == Ready && Call(s, t) == Some(s') && ClientAllows(s, t)
    ensures |s'.tasks| == |s.tasks| && TaskOk(s', s'.tasks[t])
  {
    TokenStays(s, s', s.tasks[t].token);
  }

  lemma ArriveToken(s: State, t: TaskId, s': State)
    requires CountsOk(s) && Sized(s) && t < |s.tasks| && Next(s, t) == Some(s') && TaskOk(s, s.tasks[t])
    requires (s.tasks[t].pc == Dropped || s.tasks[t].pc.Loaded?) && PhaseMoves(s, s')
    ensures |s'.tasks| == |s.tasks| && TaskOk(s', s'.tasks[t])
  {
    SumAtLeast(s.tasks, t, Pending);
    TokenStays(s, s', s.tasks[t].token);
  }

  lemma LastToken(s: State, t: TaskId, s': State)
    requires CountsOk(s) && Sized(s) && t < |s.tasks| && s.tasks[t].pc.Last? && s.q.local[t] == []
    requires Next(s, t) == Some(s') && TaskOk(s, s.tasks[t]) && PhaseMoves(s, s')
    ensures |s'.tasks| == |s.tasks| && TaskOk(s', s'.tasks[t])
  {
    TokenStays(s, s', s.tasks[t].token);
  }

  lemma TestToken(s: State, t: TaskId, s': State)
    requires Sized(s) && t < |s.tasks| && s.tasks[t].pc.Testing? && Next(s, t) == Some(s')
    requires TaskOk(s, s.tasks[t]) && PhaseMoves(s, s')
    ensures |s'.tasks| == |s.tasks| && TaskOk(s', s'.tasks[t])
  {
    TokenStays(s, s', s.tasks[t].token);
    TokenStays(s, s', InWait(s.tasks[t].pc));
  }

  lemma ActorToken(s: State, t: TaskId, s': State)
    requires QueueOk(s) && CountsOk(s) && t < |s.tasks| && s.q.local[t] == [] && TokensOk(s)
    requires Next(s, t) == Some(s') && ClientAllows(s, t)
    ensures |s'.tasks| == |s.tasks| && TaskOk(s', s'.tasks[t])
  {
    assert TaskOk(s, s.tasks[t]);
    NextPhaseMoves(s, t, s');
    match s.tasks[t].pc
    case Ready => CallToken(s, t, s');
    case Dropped => ArriveToken(s, t, s');
    case Loaded(_, _) => ArriveToken(s, t, s');
    case Last(_, _) => LastToken(s, t, s');
    case Testing(_) => TestToken(s, t, s');
    case Waiting(_, _) => WaiterToken(s, t, s');
  }

  lemma LoadedMeansOpen(s: State, u: TaskId)
    requires CountsOk(s) && u < |s.tasks| && s.tasks[u].pc.Loaded? && 0 < s.tasks[u].pc.update
    ensures Sum(s.tasks, Opening) == 0
  {
    SumAtLeast(s.tasks, u, Pending);
  }

  lemma NextTokensOk(s: State, t: TaskId, s': State)
    requires Inv(s) && t < |s.tasks| && Next(s, t) == Some(s') && ClientAllows(s, t)
    ensures TokensOk(s')
  {
    WokenTaskWaits(s, t);
    StepShape(s, t, s');
    NextPhaseMoves(s, t, s');
    forall u: TaskId | u < |s'.tasks| ensures TaskOk(s', s'.tasks[u]) {
      assert TaskOk(s, s.tasks[u]);
      TokenStays(s, s', s.tasks[u].token);
      TokenStays(s, s', InWait(s.tasks[u].pc));
      if u == t && s.q.local[t] == [] {
        ActorToken(s, t, s');
      } else if s.tasks[u].pc.Loaded? {
        LoadedMeansOpen(s, u);
        NobodyOpens(s);
      }
    }
  }

  // Waiters

  lemma MainGrows(s: State, t: TaskId, s': State)
    requires Sized(s) && t < |s.tasks| && Next(s, t) == Some(s') && !IsNotify(s.tasks[t])
    ensures s'.q.main == s.q.main
            || (s'.q.main == s.q.main + [t] && s.tasks[t].pc.Waiting? && s.tasks[t].pc.at == Pushing)
  {
  }

  lemma NotifyStaysPending(s: State, t: TaskId, s': State)
    requires Sized(s) && t < |s.tasks| && WokenOk(s, t) && Next(s, t) == Some(s') && !IsNotify(s.tasks[t])
    ensures NotifyPending(s) ==> NotifyPending(s')
  {
    StepShape(s, t, s');
    if NotifyPending(s) {
      var v :| 0 <= v < |s.tasks| && IsNotify(s.tasks[v]);
      assert IsNotify(s'.tasks[v]);
    }
  }

  lemma QueuedServed(s: State, t: TaskId, s': State, u: TaskId)
    requires Inv(s) && t < |s.tasks| && Next(s, t) == Some(s') && ClientAllows(s, t)
    requires !IsNotify(s.tasks[t]) && !NotifyPending(s') && u < |s'.tasks| && Queued(s', u)
    ensures s'.tasks[u].pc.phase == s'.phase
  {
    WokenTaskWaits(s, t);
    StepShape(s, t, s');
    NextPhaseMoves(s, t, s');
    MainGrows(s, t, s');
    NotifyStaysPending(s, t, s');
    if u == t && s.tasks[t].pc.Waiting? {
      WaiterToken(s, t, s');
      WaitShape(s, t, s');
    }
    if u == t && t in s.q.main {
      ListedIsParked(s.q, PhasesOf(s.tasks), t);
    }
  }

  lemma NextWaitersServed(s: State, t: TaskId, s': State)
    requires Inv(s) && t < |s.tasks| && Next(s, t) == Some(s') && ClientAllows(s, t)
    ensures WaitersServed(s')
  {
    if IsNotify(s.tasks[t]) {
      NotifyQueueOk(s, t, s');
      forall u: TaskId | u < |s'.tasks| ensures !Queued(s', u) {
        NobodyHoldsFreeLock(s'.q, PhasesOf(s'.tasks), u);
      }
    } else if !NotifyPending(s') {
      WokenTaskWaits(s, t);
      StepShape(s, t, s');
      forall u: TaskId | u < |s'.tasks| && Queued(s', u) ensures s'.tasks[u].pc.phase == s'.phase {
        QueuedServed(s, t, s', u);
      }
    }
  }

  lemma NextKeepsInv(s: State, t: TaskId, s': State)
    requires Inv(s) && t < |s.tasks| && Next(s, t) == Some(s') && ClientAllows(s, t)
    ensures Inv(s')
  {
    NextQueueOk(s, t, s');
    NextCounts(s, t, s');
    NextTokensOk(s, t, s');
    NextWaitersServed(s, t, s');
  }

  // Runs whose every arrival fits

  ghost predicate Steps(s: State, s': State) {
    Sized(s) && exists t: TaskId :: t < |s.tasks| && Next(s, t) == Some(s') && ClientAllows(s, t)
  }

  lemma StepsPreserveInv()
    ensures Preserved(Steps, Inv)
  {
    forall s, s' | Inv(s) && Steps(s, s') ensures Inv(s') {
      var t: TaskId :| t < |s.tasks| && Next(s, t) == Some(s') && ClientAllows(s, t);
      NextKeepsInv(s, t, s');
    }
  }

  lemma RunHasInv(run: seq<State>, i: nat)
    requires IsRun(Init, Steps, run) && i < |run|
    ensures Inv(run[i])
  {
    InitHasInv(run[0]);
    StepsPreserveInv();
    InvariantHolds(Init, Steps, Inv, run);
  }

  /** The asserts on the two counters: fetch_sub never takes more than is expected, and nobody
      drops out of a barrier whose initial count is 0. */
  lemma CountersSuffice(run: seq<State>, i: nat, t: TaskId)
    requires IsRun(Init, Steps, run) && i < |run| && t < |run[i].tasks|
    ensures run[i].tasks[t].pc.Loaded? ==> 0 < run[i].tasks[t].pc.update <= run[i].expected
    ensures run[i].tasks[t].pc == Ready && run[i].tasks[t].todo != [] ==>
              run[i].tasks[t].todo[0] == ArriveAndDrop && ClientAllows(run[i], t) ==> 0 < run[i].initial
  {
    RunHasInv(run, i);
    var s := run[i];
    assert TaskOk(s, s.tasks[t]);
    SumAtLeast(s.tasks, t, Pending);
    SumNonNegative(s.tasks, Pending);
  }

  /** Completion runs once per phase: after all arrivals of the phase, before its successor
      opens.  When phase p is open it has run p times, or p + 1 with p about to close. */
  lemma CompletesOncePerPhase(run: seq<State>, i: nat)
    requires IsRun(Init, Steps, run) && 0 < i < |run|
    ensures run[i].phase <= run[i].completions <= run[i].phase + 1
    ensures run[i - 1].completions <= run[i].completions <= run[i - 1].completions + 1
    ensures run[i].completions == run[i - 1].completions + 1 ==>
              && run[i].phase == run[i - 1].phase == run[i - 1].completions < |run[i].arrived|
              && |run[i].arrived| == |run[i].opens|
              && run[i].arrived[run[i].phase] == run[i].opens[run[i].phase]
  {
    RunHasInv(run, i - 1);
    RunHasInv(run, i);
    CompletionsBounded(run[i]);
    var s, s' := run[i - 1], run[i];
    var t: TaskId :| t < |s.tasks| && Next(s, t) == Some(s') && ClientAllows(s, t);
    WokenTaskWaits(s, t);
    StepPhase(s, t, s');
    StepCompletes(s, t, s');
  }

  lemma CompletionsBounded(s: State)
    requires CountsOk(s)
    ensures s.phase <= s.completions <= s.phase + 1
  {
    if Sum(s.tasks, Opening) > 0 {
      var t := SumWitness(s.tasks, Opening);
    }
  }

  lemma StepCompletes(s: State, t: TaskId, s': State)
    requires Sized(s) && t < |s.tasks| && Next(s, t) == Some(s')
    ensures s'.completions == s.completions
            + if s.tasks[t].pc.Last? && s.tasks[t].pc.stage == RunCompletion then 1 else 0
    ensures s'.completions != s.completions ==> s'.arrived == s.arrived && s'.opens == s.opens
  {
  }

  /** What a step does to the records of the phases. */
  lemma StepRecords(s: State, t: TaskId, s': State)
    requires Sized(s) && CountsOk(s) && t < |s.tasks| && TaskOk(s, s.tasks[t]) && Next(s, t) == Some(s')
    ensures s'.initial + s'.drops == s.initial + s.drops
    ensures s.phase < |s'.arrived|
    ensures s'.arrived[..s.phase] == s.arrived[..s.phase] && s'.opens[..s.phase + 1] == s.opens
    ensures s'.phase != s.phase ==>
              && s'.phase == s.phase + 1 < |s'.opens| && s'.arrived[s.phase] == s.arrived[s.phase]
              && s'.opens[s'.phase] == s'.initial == s'.expected
  {
    var task := s.tasks[t];
    if task.pc == Ready {
      assert s'.arrived == s.arrived && s'.opens == s.opens;
    } else if task.pc.Loaded? {
      assert s'.opens == s.opens && s'.initial == s.initial;
    } else if task.pc.Last? {
      LastRecords(s, t, s');
    }
  }

  lemma LastRecords(s: State, t: TaskId, s': State)
    requires Sized(s) && CountsOk(s) && t < |s.tasks| && s.tasks[t].pc.Last? && Next(s, t) == Some(s')
    ensures s'.initial == s.initial && s'.drops == s.drops
    ensures if IsStoring(s.tasks[t]) then
              && s'.arrived == s.arrived + [0] && s'.opens == s.opens + [s.initial]
              && s'.phase == s.phase + 1 && s'.expected == s.initial
            else s'.arrived == s.arrived && s'.opens == s.opens && s'.phase == s.phase
  {
  }

  lemma StepsRecord(s: State, s': State)
    requires Inv(s) && Steps(s, s')
    ensures s'.initial + s'.drops == s.initial + s.drops
    ensures s'.phase != s.phase ==> s'.phase == s.phase + 1 && s'.initial == s'.expected
  {
    var t: TaskId :| t < |s.tasks| && Next(s, t) == Some(s') && ClientAllows(s, t);
    assert TaskOk(s, s.tasks[t]);
    StepRecords(s, t, s');
  }

  lemma RunRecords(run: seq<State>, i: nat)
    requires IsRun(Init, Steps, run) && i < |run| - 1
    ensures run[i + 1].phase != run[i].phase ==>
              run[i + 1].phase == run[i].phase + 1 && run[i + 1].initial == run[i + 1].expected
  {
    RunHasInv(run, i);
    StepsRecord(run[i], run[i + 1]);
  }

  /** Phase k + 1 opens with the initial count minus all drops made so far. */
  lemma OpensWithDropsDeducted(run: seq<State>, i: nat)
    requires IsRun(Init, Steps, run) && 0 < i < |run| && run[i].phase != run[i - 1].phase
    ensures run[i].phase == run[i - 1].phase + 1
    ensures run[i].expected == run[0].initial - run[i].drops
  {
    RunRecords(run, i - 1);
    DropsConserved(run, i);
  }

  lemma DropsConserved(run: seq<State>, i: nat)
    requires IsRun(Init, Steps, run) && i < |run|
    ensures run[i].initial + run[i].drops == run[0].initial
  {
    InitHasInv(run[0]);
    StepsPreserveInv();
    var quantity := (s: State) => s.initial + s.drops;
    forall s, s' | Inv(s) && Steps(s, s') ensures quantity(s') == quantity(s) {
      StepsRecord(s, s');
    }
    QuantityConserved(Init, Steps, Inv, quantity, run);
  }

  // Careful clients

  /** While a phase is announced nobody is arriving or opening the next, and nobody has a token
      of it. */
  predicate TokenPast(s: State, token: Option<nat>) {
    token.Some? ==> token.value < s.phase
  }

  predicate TaskPast(s: State, task: Task) {
    Pending(task) == 0 == Opening(task) && TokenPast(s, task.token) && TokenPast(s, InWait(task.pc))
  }

  predicate AnnouncedPast(s: State) {
    AnnouncedNow(s) ==> forall t :: 0 <= t < |s.tasks| ==> TaskPast(s, s.tasks[t])
  }

  /** Whoever has been popped waits for a phase that is over. */
  predicate PoppedPast(s: State) {
    forall r, w: TaskId :: 0 <= r < |s.q.local| && w in s.q.local[r] && w < |s.tasks| && s.tasks[w].pc.Waiting? ==>
      s.tasks[w].pc.phase < s.phase
  }

  ghost predicate CarefulInv(s: State) {
    Inv(s) && AnnouncedPast(s) && PoppedPast(s)
  }

  lemma ActorAnnounces(s: State, t: TaskId, s': State)
    requires Sized(s) && t < |s.tasks| && s.q.local[t] == [] && Next(s, t) == Some(s') && |s'.tasks| == |s.tasks|
    ensures IsAnnouncing(s'.tasks[t]) ==> IsAnnouncing(s.tasks[t]) || IsStoring(s.tasks[t])
  {
  }

  /** An announcement goes on, or begins with the store of the phase. */
  lemma AnnouncementBegins(s: State, t: TaskId, s': State)
    requires Sized(s) && t < |s.tasks| && WokenOk(s, t) && Next(s, t) == Some(s') && AnnouncedNow(s')
    ensures AnnouncedNow(s) || IsStoring(s.tasks[t])
  {
    StepShape(s, t, s');
    if s.q.local[t] == [] {
      ActorAnnounces(s, t, s');
    }
    var a :| 0 <= a < |s'.tasks| && IsAnnouncing(s'.tasks[a]);
    assert IsAnnouncing(s.tasks[a]) || (a == t && IsStoring(s.tasks[t]));
  }

  /** When the phase is stored nobody is arriving, and all tokens are of phases before it. */
  lemma StoringPast(s: State, t: TaskId, s': State)
    requires CountsOk(s) && TokensOk(s) && Sized(s) && t < |s.tasks| && IsStoring(s.tasks[t]) && Next(s, t) == Some(s')
    ensures AnnouncedPast(s')
  {
    OpenerIsAlone(s, t);
    assert LastOk(s, s.tasks[t].pc.stage, s.tasks[t].pc.phase);
    forall u: TaskId | u < |s.tasks| ensures |s'.tasks| == |s.tasks| && TaskPast(s', s'.tasks[u]) {
      assert TaskOk(s, s.tasks[u]);
      SumAtLeast(s.tasks, u, Pending);
    }
  }

  lemma ActorPast(s: State, t: TaskId, s': State)
    requires Sized(s) && t < |s.tasks| && s.q.local[t] == [] && Next(s, t) == Some(s')
    requires TaskPast(s, s.tasks[t]) && s'.phase == s.phase && !BeginsArrival(s.tasks[t])
    requires TaskOk(s, s.tasks[t]) && (IsAnnouncing(s.tasks[t]) ==> s.tasks[t].pc.phase < s.phase)
    ensures |s'.tasks| == |s.tasks| && TaskPast(s', s'.tasks[t])
  {
  }

  lemma NextAnnouncedPast(s: State, t: TaskId, s': State)
    requires QueueOk(s) && CountsOk(s) && TokensOk(s) && AnnouncedPast(s)
    requires t < |s.tasks| && Next(s, t) == Some(s') && Careful(s, t)
    ensures AnnouncedPast(s')
  {
    WokenTaskWaits(s, t);
    StepShape(s, t, s');
    StepPhase(s, t, s');
    if IsStoring(s.tasks[t]) {
      StoringPast(s, t, s');
    } else if AnnouncedNow(s') {
      AnnouncementBegins(s, t, s');
      forall u: TaskId | u < |s'.tasks| ensures TaskPast(s', s'.tasks[u]) {
        assert TaskPast(s, s.tasks[u]) && TaskOk(s, s.tasks[u]);
        if u == t && s.q.local[t] == [] {
          AnnouncesPast(s, t);
          ActorPast(s, t, s');
        }
      }
    }
  }

  lemma AnnouncesPast(s: State, t: TaskId)
    requires CountsOk(s) && t < |s.tasks|
    ensures IsAnnouncing(s.tasks[t]) ==> s.tasks[t].pc.phase < s.phase
  {
    assert s.tasks[t].pc.Last? ==> LastOk(s, s.tasks[t].pc.stage, s.tasks[t].pc.phase);
  }

  lemma NotifyShape(s: State, t: TaskId, s': State)
    requires Sized(s) && t < |s.tasks| && IsNotify(s.tasks[t]) && Next(s, t) == Some(s')
    ensures s'.phase == s.phase && |s'.tasks| == |s.tasks|
    ensures forall w :: 0 <= w < |s.tasks| && s'.tasks[w].pc.Waiting? ==> s'.tasks[w] == s.tasks[w]
  {
  }

  /** The tasks a broadcast pops wait for phases that are over. */
  lemma BroadcastPopsPast(s: State, t: TaskId, s': State)
    requires Sized(s) && AnnouncedPast(s) && t < |s.tasks| && IsNotify(s.tasks[t]) && Next(s, t) == Some(s')
    ensures PoppedPast(s')
  {
    NotifyShape(s, t, s');
    assert AnnouncedNow(s);
    forall w: TaskId | w < |s'.tasks| && s'.tasks[w].pc.Waiting? ensures s'.tasks[w].pc.phase < s'.phase {
      assert TaskPast(s, s.tasks[w]);
    }
  }

  lemma LocalListsShrink(s: State, t: TaskId, s': State)
    requires Sized(s) && t < |s.tasks| && Next(s, t) == Some(s') && !IsNotify(s.tasks[t])
    ensures |s'.q.local| == |s.q.local|
    ensures forall r, w: TaskId :: 0 <= r < |s.q.local| && w in s'.q.local[r] ==> w in s.q.local[r]
  {
  }

  lemma NextPoppedPast(s: State, t: TaskId, s': State)
    requires QueueOk(s) && CountsOk(s) && AnnouncedPast(s) && PoppedPast(s) && t < |s.tasks| && Next(s, t) == Some(s')
    ensures PoppedPast(s')
  {
    WokenTaskWaits(s, t);
    StepShape(s, t, s');
    NextPhaseMoves(s, t, s');
    if IsNotify(s.tasks[t]) {
      BroadcastPopsPast(s, t, s');
    } else {
      LocalListsShrink(s, t, s');
      forall r, w: TaskId | 0 <= r < |s'.q.local| && w in s'.q.local[r] && w < |s'.tasks| && s'.tasks[w].pc.Waiting?
        ensures s'.tasks[w].pc.phase < s'.phase
      {
        assert w in s.q.local[r];
        ListedIsParked(s.q, PhasesOf(s.tasks), w);
      }
    }
  }

  ghost predicate CarefulSteps(s: State, s': State) {
    && Sized(s)
    && exists t: TaskId :: t < |s.tasks| && Next(s, t) == Some(s') && ClientAllows(s, t) && Careful(s, t)
  }

  lemma CarefulStepsPreserve()
    ensures Preserved(CarefulSteps, CarefulInv)
  {
    forall s, s' | CarefulInv(s) && CarefulSteps(s, s') ensures CarefulInv(s') {
      var t: TaskId :| t < |s.tasks| && Next(s, t) == Some(s') && ClientAllows(s, t) && Careful(s, t);
      NextKeepsInv(s, t, s');
      NextAnnouncedPast(s, t, s');
      NextPoppedPast(s, t, s');
    }
  }

  lemma CarefulRunHasInv(run: seq<State>, i: nat)
    requires IsRun(Init, CarefulSteps, run) && i < |run|
    ensures CarefulInv(run[i])
  {
    InitHasInv(run[0]);
    CarefulStepsPreserve();
    InvariantHolds(Init, CarefulSteps, CarefulInv, run);
  }

  /** Phase k is over, with all the arrivals it opened with. */
  predicate Over(s: State, k: nat) {
    k < s.phase < |s.arrived| && |s.arrived| == |s.opens| && s.arrived[k] == s.opens[k]
  }

  /** Task t waits with a token of phase k in the one state and no longer in the other. */
  predicate Leaves(s: State, s': State, t: TaskId, k: nat) {
    && t < |s.tasks| && InWait(s.tasks[t].pc) == Some(k)
    && (t < |s'.tasks| ==> InWait(s'.tasks[t].pc) != Some(k))
  }

  /** Every departure in the run is from a phase that is over. */
  ghost predicate NobodyEarly(run: seq<State>) {
    forall i :: 0 < i < |run| ==> OnTime(run[i - 1], run[i])
  }

  ghost predicate OnTime(s: State, s': State) {
    forall t: TaskId, k: nat :: Leaves(s, s', t, k) ==> Over(s', k)
  }

  /** In a careful run nobody waiting with a token of phase k returns before phase k is over,
      which takes all the arrivals phase k opened with. */
  lemma NobodyLeavesEarly(run: seq<State>)
    requires IsRun(Init, CarefulSteps, run)
    ensures NobodyEarly(run)
  {
    forall i | 0 < i < |run| ensures OnTime(run[i - 1], run[i]) {
      CarefulRunHasInv(run, i - 1);
      CarefulRunHasInv(run, i);
      LeavesOnTime(run[i - 1], run[i]);
    }
  }

  lemma LeavesOnTime(s: State, s': State)
    requires CarefulInv(s) && CarefulSteps(s, s') && CarefulInv(s')
    ensures OnTime(s, s')
  {
    var u: TaskId :| u < |s.tasks| && Next(s, u) == Some(s') && ClientAllows(s, u) && Careful(s, u);
    NextPhaseMoves(s, u, s');
    forall t: TaskId, k: nat | Leaves(s, s', t, k) ensures Over(s', k) {
      LeavesAfterwards(s, u, s', t, k);
    }
  }

  lemma LeavesAfterwards(s: State, u: TaskId, s': State, t: TaskId, k: nat)
    requires QueueOk(s) && CountsOk(s) && TokensOk(s) && PoppedPast(s) && TokensRecent(s)
    requires u < |s.tasks| && t < |s.tasks| && Next(s, u) == Some(s') && InWait(s.tasks[t].pc) == Some(k)
    ensures |s'.tasks| == |s.tasks| && InWait(s'.tasks[t].pc) in {None, Some(k)}
    ensures InWait(s'.tasks[t].pc) == None ==> k < s.phase
  {
    assert TaskOk(s, s.tasks[t]);
    WokenTaskWaits(s, u);
    StepShape(s, u, s');
    if s.q.local[u] != [] {
      assert s.q.local[u][0] in s.q.local[u];
    } else if t == u {
      WaitShape(s, t, s');
      if s.tasks[t].pc.Waiting? {
        WaiterToken(s, t, s');
      } else {
        BytesDecide(k, s.phase);
      }
    }
  }

  // Stuck states

  ghost predicate Stuck(s: State) {
    Sized(s) && forall t: TaskId :: t < |s.tasks| ==> Next(s, t) == None
  }

  /** All calls returned, or about to wait without having arrived, which no caller can. */
  predicate Finished(task: Task) {
    task.pc == Ready && (task.todo == [] || (task.todo[0] == Wait && task.token == None))
  }

  predicate IsParkedAt(task: Task, k: nat) {
    task.pc == Waiting(k, Parked)
  }

  lemma LockHolderSteps(s: State)
    requires QueueOk(s) && s.q.owner.Some?
    ensures s.q.owner.value < |s.tasks| && Next(s, s.q.owner.value) != None
    ensures !Finished(s.tasks[s.q.owner.value]) && !IsParkedTask(s.tasks[s.q.owner.value])
  {
    var u := s.q.owner.value;
    assert HoldsLock(PhasesOf(s.tasks)[u]) <==> s.q.owner == Some(u);
  }

  lemma StuckTask(s: State, t: TaskId)
    requires Sized(s) && s.q.owner == None && t < |s.tasks|
    ensures Next(s, t) == None <==> Finished(s.tasks[t]) || IsParkedTask(s.tasks[t])
  {
  }

  lemma StuckLists(s: State)
    requires QueueOk(s) && Stuck(s)
    ensures s.q.owner == None
    ensures forall t: TaskId :: t < |s.tasks| && IsParkedTask(s.tasks[t]) ==> t in s.q.main
    ensures !NotifyPending(s) && Sum(s.tasks, Opening) == 0
  {
    if s.q.owner.Some? {
      LockHolderSteps(s);
    }
    forall t: TaskId | t < |s.tasks| ensures s.q.local[t] == [] && !s.tasks[t].pc.Last? {
      StuckTask(s, t);
    }
    SumZero(s.tasks, Opening);
    AllInMain(s.q, PhasesOf(s.tasks));
    forall t: TaskId | t < |s.tasks| && IsParkedTask(s.tasks[t]) ensures t in s.q.main {
      assert ParkedAt(PhasesOf(s.tasks), t);
    }
  }

  /** Nobody is left asleep in a phase that is over: a state is stuck exactly when everyone is
      finished or asleep in the open phase, which still lacks arrivals. */
  lemma StuckExactly(s: State)
    requires Inv(s)
    ensures Stuck(s) <==>
      forall t :: 0 <= t < |s.tasks| ==>
        || Finished(s.tasks[t])
        || (IsParkedAt(s.tasks[t], s.phase) && 0 < s.arrived[s.phase] < s.opens[s.phase])
  {
    if Stuck(s) {
      StuckLists(s);
      forall t: TaskId | t < |s.tasks| && IsParkedTask(s.tasks[t])
        ensures IsParkedAt(s.tasks[t], s.phase) && 0 < s.arrived[s.phase] < s.opens[s.phase]
      {
        assert TaskOk(s, s.tasks[t]);
        assert Queued(s, t);
      }
      forall t: TaskId | t < |s.tasks| ensures Finished(s.tasks[t]) || IsParkedTask(s.tasks[t]) {
        StuckTask(s, t);
      }
    } else if forall t :: 0 <= t < |s.tasks| ==> Finished(s.tasks[t]) || IsParkedAt(s.tasks[t], s.phase) {
      if s.q.owner.Some? {
        LockHolderSteps(s);
      }
      forall t: TaskId | t < |s.tasks| ensures Next(s, t) == None {
        StuckTask(s, t);
      }
    }
  }

  // Termination

  function StageWork(stage: Stage): int {
    match stage
    case RunCompletion => 6
    case LoadInitial => 5
    case StoreExpected(_) => 4
    case StorePhase => 3
    case Notify => 2
    case Waking => 1
  }

  function PcWork(pc: Pc): int {
    match pc
    case Ready => 0
    case Dropped => 8
    case Loaded(_, _) => 7
    case Last(stage, _) => StageWork(stage)
    case Testing(_) => 8
    case Waiting(_, at) => WaitWork(at)
  }

  function TaskWork(task: Task): int {
    9 * |task.todo| + PcWork(task.pc)
  }

  function Measure(s: State): int {
    Sum(s.tasks, TaskWork)
  }

  lemma ActorWork(s: State, t: TaskId, s': State)
    requires Sized(s) && t < |s.tasks| && s.q.local[t] == [] && Next(s, t) == Some(s')
    ensures |s'.tasks| == |s.tasks| && TaskWork(s'.tasks[t]) < TaskWork(s.tasks[t])
  {
  }

  lemma StepLowersMeasure(s: State, t: TaskId, s': State)
    requires Sized(s) && t < |s.tasks| && WokenOk(s, t) && Next(s, t) == Some(s')
    ensures Measure(s') < Measure(s)
  {
    StepShape(s, t, s');
    var u := if s.q.local[t] != [] then s.q.local[t][0] else t;
    if s.q.local[t] == [] {
      ActorWork(s, t, s');
    }
    SumUpdate(s.tasks, u, s'.tasks[u], TaskWork);
  }

  ghost predicate AnySteps(s: State, s': State) {
    Sized(s) && exists t: TaskId :: t < |s.tasks| && Next(s, t) == Some(s')
  }

  lemma AnyStepLowers(s: State, s': State)
    requires QueueOk(s) && AnySteps(s, s')
    ensures QueueOk(s') && Measure(s') < Measure(s)
  {
    var t: TaskId :| t < |s.tasks| && Next(s, t) == Some(s');
    WokenTaskWaits(s, t);
    NextQueueOk(s, t, s');
    StepLowersMeasure(s, t, s');
  }

  /** Every run ends, whatever the client does: it is no longer than a bound read off the
      starting state. */
  lemma RunsAreFinite(run: seq<State>)
    requires IsRun(Init, AnySteps, run)
    ensures |run| - 1 <= Measure(run[0])
  {
    InitHasInv(run[0]);
    forall s, s' | QueueOk(s) && AnySteps(s, s') ensures QueueOk(s') && Measure(s') < Measure(s) {
      AnyStepLowers(s, s');
    }
    RunIsBounded(Init, AnySteps, QueueOk, Measure, run);
    SumNonNegative(run[|run| - 1].tasks, TaskWork);
  }
}
