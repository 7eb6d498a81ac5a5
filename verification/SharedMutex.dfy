/** The reader-writer mutex, one atomic action at a time.  One word encodes three things: a
    count of readers, the exclusive lock, and the transition of the last reader.  Writers
    are handed the lock directly; readers are woken in a batch and retry. */
module SharedMutex {
  import opened TaskSums
  import opened WaitProtocol

  const TRANSITION := -2
  const WRITER_LOCKED := -1

  /** One lock and unlock pair, or one try followed by an unlock if it succeeded. */
  datatype Job = Write | TryWrite | Read | TryRead

  datatype Pc =
    | Ready                                // between two jobs
    // lock and try_lock
    | TryLock(blocking: bool)              // about to exchange 0 for WRITER_LOCKED
    | WriteWait(phase: Phase)              // inside wait_if on the writers' queue
    | Writing                              // lock returned, unlock not yet called
    // lock_shared and try_lock_shared
    | Load(blocking: bool)                 // about to load the state
    | ShareCas(current: int, blocking: bool)  // about to exchange current for current + 1
    | ReadWait(phase: Phase)               // inside wait_if on the readers' queue
    | Reading                              // lock_shared returned, unlock_shared not yet called
    // unlock_shared
    | Drop(current: int)                   // about to exchange a possibly stale value
    | InTransition                         // last reader, about to store WRITER_LOCKED
    // the tail shared by unlock and unlock_shared
    | PopWriter                            // about to pop one writer
    | HandOff                              // popped a writer, about to resume it
    | StoreZero                            // popped nothing, about to store 0
    | Broadcast                            // stored 0, about to pop all readers
    | Waking                               // resuming the readers popped

  /** `late` is history: the waiting writer's re-check failed while a releaser stood between
      its empty pop and its store of 0. */
  datatype Task = Task(todo: seq<Job>, pc: Pc, late: bool)

  datatype State = State(state: int, writers: Waiters, readers: Waiters, tasks: seq<Task>)

  function SetPc(tasks: seq<Task>, t: TaskId, pc: Pc): seq<Task> {
    if t < |tasks| then tasks[t := Task(tasks[t].todo, pc, false)] else tasks
  }

  function Goto(s: State, t: TaskId, pc: Pc): State {
    s.(tasks := SetPc(s.tasks, t, pc))
  }

  function FirstAction(job: Job): Pc {
    match job
    case Write => TryLock(true)
    case TryWrite => TryLock(false)
    case Read => Load(true)
    case TryRead => Load(false)
  }

  predicate SomeAt(tasks: seq<Task>, pc: Pc) {
    exists t :: 0 <= t < |tasks| && tasks[t].pc == pc
  }

  /** `wait_if` with the predicate `!try_lock()`, which takes the lock when it answers no. */
  function WriteWaitNext(s: State, t: TaskId, phase: Phase): Option<State>
    requires t < |s.tasks|
  {
    var evaluates := phase == FastPath || phase == Recheck;
    var state := if evaluates && s.state == 0 then WRITER_LOCKED else s.state;
    match WaitIf(s.writers, t, phase, s.state != 0)
    case Blocked => None
    case Return(q) => Some(State(state, q, s.readers, SetPc(s.tasks, t, Writing)))
    case Continue(q, p) =>
      var late := if p == Pushing then SomeAt(s.tasks, StoreZero) else s.tasks[t].late;
      Some(State(state, q, s.readers, s.tasks[t := Task(s.tasks[t].todo, WriteWait(p), late)]))
  }

  function AfterLoad(value: int, blocking: bool): Pc {
    if value >= 0 then ShareCas(value, blocking) else if blocking then ReadWait(FastPath) else Ready
  }

  function ReadWaitNext(s: State, t: TaskId, phase: Phase): Option<State> {
    match WaitIf(s.readers, t, phase, s.state < 0)
    case Blocked => None
    case Return(q) => Some(Goto(s, t, Load(true)).(readers := q))
    case Continue(q, p) => Some(Goto(s, t, ReadWait(p)).(readers := q))
  }

  predicate Sized(s: State) {
    |s.tasks| == |s.writers.local| == |s.readers.local|
  }

  /** Steps of the two unlock operations, and of a task between jobs. */
  function UnlockNext(s: State, t: TaskId, weak: bool): Option<State>
    requires Sized(s) && t < |s.tasks|
  {
    match s.tasks[t].pc
    case Ready =>
      if s.tasks[t].todo == [] then None
      else Some(s.(tasks := s.tasks[t := Task(s.tasks[t].todo[1..], FirstAction(s.tasks[t].todo[0]), false)]))
    case Writing => Some(Goto(s, t, PopWriter))
    case Reading => Some(Goto(s, t, Drop(s.state)))
    case Drop(current) =>
      if s.state != current || weak then Some(Goto(s, t, Drop(s.state)))
      else if current > 1 then Some(Goto(s, t, Ready).(state := s.state - 1))
      else Some(Goto(s, t, InTransition).(state := TRANSITION))
    case InTransition => Some(Goto(s, t, PopWriter).(state := WRITER_LOCKED))
    case PopWriter =>
      (match Take(s.writers, t, 1)
       case None => None
       case Some(q) => Some(Goto(s, t, if q.local[t] == [] then StoreZero else HandOff).(writers := q)))
    case HandOff =>
      if s.writers.local[t] == [] then None
      else Some(Goto(Goto(s, s.writers.local[t][0], Writing), t, Ready).(writers := DropFront(s.writers, t)))
    case StoreZero => Some(Goto(s, t, Broadcast).(state := 0))
    case Broadcast =>
      (match TakeAll(s.readers, t)
       case None => None
       case Some(q) => Some(Goto(s, t, Waking).(readers := q)))
    case Waking =>
      if s.readers.local[t] == [] then Some(Goto(s, t, Ready))
      else Some(Goto(s, s.readers.local[t][0], Load(true)).(readers := DropFront(s.readers, t)))
    case _ => None
  }

  /** What task `t` does next, or None when it has finished or is blocked.  `weak` lets a weak
      compare-exchange fail although the values agree. */
  function Next(s: State, t: TaskId, weak: bool): Option<State>
    requires Sized(s) && t < |s.tasks|
  {
    match s.tasks[t].pc
    case TryLock(b) =>
      if s.state == 0 then Some(Goto(s, t, Writing).(state := WRITER_LOCKED))
      else Some(Goto(s, t, if b then WriteWait(FastPath) else Ready))
    case WriteWait(phase) => WriteWaitNext(s, t, phase)
    case Load(b) => Some(Goto(s, t, AfterLoad(s.state, b)))
    case ShareCas(current, b) =>
      if s.state == current && !weak then Some(Goto(s, t, Reading).(state := s.state + 1))
      else Some(Goto(s, t, AfterLoad(s.state, b)))
    case ReadWait(phase) => ReadWaitNext(s, t, phase)
    case _ => UnlockNext(s, t, weak)
  }

  // The invariant

  function WritePhase(task: Task): Option<Phase> {
    if task.pc.WriteWait? then Some(task.pc.phase) else None
  }

  function ReadPhase(task: Task): Option<Phase> {
    if task.pc.ReadWait? then Some(task.pc.phase) else None
  }

  function WritePhases(tasks: seq<Task>): Phases {
    seq(|tasks|, i requires 0 <= i < |tasks| => WritePhase(tasks[i]))
  }

  function ReadPhases(tasks: seq<Task>): Phases {
    seq(|tasks|, i requires 0 <= i < |tasks| => ReadPhase(tasks[i]))
  }

  /** Owns the exclusive token: holder, releaser that has not given it up, or the writer that
      took it in its re-check and has not run since. */
  function Exclusive(task: Task): int {
    match task.pc
    case Writing => 1
    case PopWriter => 1
    case HandOff => 1
    case StoreZero => 1
    case WriteWait(phase) => if phase == SelfResume then 1 else 0
    case _ => 0
  }

  function Share(task: Task): int {
    if task.pc == Reading || task.pc.Drop? then 1 else 0
  }

  function Moving(task: Task): int {
    if task.pc == InTransition then 1 else 0
  }

  ghost predicate QueuesOk(s: State) {
    && WaitInv(s.writers, WritePhases(s.tasks))
    && WaitInv(s.readers, ReadPhases(s.tasks))
    && forall t :: 0 <= t < |s.tasks| ==>
         && |s.writers.local[t]| == (if s.tasks[t].pc == HandOff then 1 else 0)
         && (s.readers.local[t] != [] ==> s.tasks[t].pc == Waking)
  }

  function Tokens(state: int): int {
    if state == WRITER_LOCKED then 1 else 0
  }

  function Movers(state: int): int {
    if state == TRANSITION then 1 else 0
  }

  function Shares(state: int): int {
    if state >= 0 then state else 0
  }

  /** A value kept from an earlier load could have been the word of that time. */
  predicate LoadedOk(pc: Pc) {
    (pc.Drop? ==> pc.current >= 1) && (pc.ShareCas? ==> pc.current >= 0)
  }

  /** The word counts its owners. */
  ghost predicate Accounted(s: State) {
    && Sum(s.tasks, Exclusive) == Tokens(s.state)
    && Sum(s.tasks, Moving) == Movers(s.state)
    && Sum(s.tasks, Share) == Shares(s.state)
    && s.state >= TRANSITION
    && forall t :: 0 <= t < |s.tasks| ==> LoadedOk(s.tasks[t].pc)
  }

  predicate ReadersWait(s: State) {
    s.readers.main != [] || SomeAt(s.tasks, ReadWait(Pushing))
  }

  /** Readers wait only while the state is negative or a releaser will pop them all. */
  predicate ReadersServed(s: State) {
    ReadersWait(s) ==> s.state < 0 || SomeAt(s.tasks, Broadcast)
  }

  predicate PastRecheck(pc: Pc) {
    pc == WriteWait(Pushing) || pc == WriteWait(Parked)
  }

  /** A writer that waits with nobody left to pop it has re-checked too late. */
  predicate WaitersLate(s: State) {
    && (forall t :: 0 <= t < |s.tasks| && s.tasks[t].late ==> PastRecheck(s.tasks[t].pc))
    && (s.state == 0 || SomeAt(s.tasks, StoreZero) ==>
          forall t :: 0 <= t < |s.tasks| && PastRecheck(s.tasks[t].pc) ==> s.tasks[t].late)
  }

  ghost predicate Inv(s: State) {
    QueuesOk(s) && Accounted(s) && ReadersServed(s) && WaitersLate(s)
  }

  ghost predicate Init(s: State) {
    && s.state == 0
    && s.writers == NoWaiters(|s.tasks|) && s.readers == NoWaiters(|s.tasks|)
    && forall t :: 0 <= t < |s.tasks| ==> s.tasks[t].pc == Ready && !s.tasks[t].late
  }

  lemma InitHasInv(s: State)
    requires Init(s)
    ensures Inv(s)
  {
    NoWaitersInv(WritePhases(s.tasks));
    NoWaitersInv(ReadPhases(s.tasks));
    SumZero(s.tasks, Exclusive);
    SumZero(s.tasks, Moving);
    SumZero(s.tasks, Share);
  }

  lemma PhasesSet(tasks: seq<Task>, t: TaskId, task: Task)
    requires t < |tasks|
    ensures WritePhases(tasks[t := task]) == WritePhases(tasks)[t := WritePhase(task)]
    ensures ReadPhases(tasks[t := task]) == ReadPhases(tasks)[t := ReadPhase(task)]
    ensures WritePhase(task) == WritePhase(tasks[t]) ==> WritePhases(tasks[t := task]) == WritePhases(tasks)
    ensures ReadPhase(task) == ReadPhase(tasks[t]) ==> ReadPhases(tasks[t := task]) == ReadPhases(tasks)
  {
  }

  // Queues

  /** A step that starts waiting, or does not concern the queues at all. */
  predicate LeavesQueues(pc: Pc, pc': Pc) {
    && !pc.WriteWait? && !pc.ReadWait?
    && (pc'.WriteWait? ==> pc'.phase == FastPath)
    && (pc'.ReadWait? ==> pc'.phase == FastPath)
    && pc != HandOff && pc' != HandOff
  }

  lemma LeftQueuesOk(s: State, t: TaskId, s': State)
    requires QueuesOk(s) && t < |s.tasks| == |s'.tasks|
    requires s'.writers == s.writers && s'.readers == s.readers
    requires s'.tasks == s.tasks[t := s'.tasks[t]] && LeavesQueues(s.tasks[t].pc, s'.tasks[t].pc)
    requires s.readers.local[t] == []
    ensures QueuesOk(s')
  {
    PhasesSet(s.tasks, t, s'.tasks[t]);
    if s'.tasks[t].pc.WriteWait? {
      EnterKeepsInv(s.writers, WritePhases(s.tasks), t);
    }
    if s'.tasks[t].pc.ReadWait? {
      EnterKeepsInv(s.readers, ReadPhases(s.tasks), t);
    }
  }

  lemma WriteWaitShape(s: State, t: TaskId, s': State)
    requires t < |s.tasks| && s.tasks[t].pc.WriteWait?
    requires WriteWaitNext(s, t, s.tasks[t].pc.phase) == Some(s')
    ensures |s'.tasks| == |s.tasks| && s'.tasks == s.tasks[t := s'.tasks[t]]
    ensures s'.readers == s.readers && s'.writers.local == s.writers.local
    ensures s'.tasks[t].pc != HandOff && ReadPhase(s'.tasks[t]) == None
    ensures match WaitIf(s.writers, t, s.tasks[t].pc.phase, s.state != 0)
            case Blocked => false
            case Continue(q, p) => s'.writers == q && WritePhase(s'.tasks[t]) == Some(p)
            case Return(q) => s'.writers == q && WritePhase(s'.tasks[t]) == None
  {
  }

  lemma ReadWaitShape(s: State, t: TaskId, s': State)
    requires t < |s.tasks| && s.tasks[t].pc.ReadWait?
    requires ReadWaitNext(s, t, s.tasks[t].pc.phase) == Some(s')
    ensures |s'.tasks| == |s.tasks| && s'.tasks == s.tasks[t := s'.tasks[t]]
    ensures s'.writers == s.writers && s'.readers.local == s.readers.local
    ensures s'.tasks[t].pc != HandOff && WritePhase(s'.tasks[t]) == None
    ensures match WaitIf(s.readers, t, s.tasks[t].pc.phase, s.state < 0)
            case Blocked => false
            case Continue(q, p) => s'.readers == q && ReadPhase(s'.tasks[t]) == Some(p)
            case Return(q) => s'.readers == q && ReadPhase(s'.tasks[t]) == None
  {
  }

  lemma WriteWaitQueuesOk(s: State, t: TaskId, s': State)
    requires QueuesOk(s) && t < |s.tasks| && s.tasks[t].pc.WriteWait?
    requires WriteWaitNext(s, t, s.tasks[t].pc.phase) == Some(s')
    ensures QueuesOk(s')
  {
    WriteWaitShape(s, t, s');
    PhasesSet(s.tasks, t, s'.tasks[t]);
    WaitIfKeepsInv(s.writers, WritePhases(s.tasks), t, s.state != 0);
  }

  lemma ReadWaitQueuesOk(s: State, t: TaskId, s': State)
    requires QueuesOk(s) && t < |s.tasks| && s.tasks[t].pc.ReadWait?
    requires ReadWaitNext(s, t, s.tasks[t].pc.phase) == Some(s')
    ensures QueuesOk(s')
  {
    ReadWaitShape(s, t, s');
    PhasesSet(s.tasks, t, s'.tasks[t]);
    WaitIfKeepsInv(s.readers, ReadPhases(s.tasks), t, s.state < 0);
  }

  lemma PopQueuesOk(s: State, t: TaskId, s': State)
    requires QueuesOk(s) && t < |s.tasks| && (s.tasks[t].pc == PopWriter || s.tasks[t].pc == Broadcast)
    requires Next(s, t, false) == Some(s')
    ensures QueuesOk(s')
    ensures s'.tasks[t].pc == StoreZero ==> s'.writers.main == [] && s.writers.main == []
    ensures s.tasks[t].pc == Broadcast ==> s'.readers.main == []
  {
    PhasesSet(s.tasks, t, s'.tasks[t]);
    if s.tasks[t].pc == PopWriter {
      TakeKeepsInv(s.writers, WritePhases(s.tasks), t, 1);
    } else {
      TakeKeepsInv(s.readers, ReadPhases(s.tasks), t, |s.readers.main|);
    }
  }

  /** A task about to be resumed by `t` is parked, and is not `t`. */
  predicate WokenOk(s: State, t: TaskId)
    requires Sized(s) && t < |s.tasks|
  {
    && (s.tasks[t].pc == HandOff ==>
          && s.writers.local[t] != []
          && var w := s.writers.local[t][0]; w < |s.tasks| && w != t && s.tasks[w].pc == WriteWait(Parked))
    && (s.readers.local[t] != [] ==>
          && s.tasks[t].pc == Waking
          && var w := s.readers.local[t][0]; w < |s.tasks| && w != t && s.tasks[w].pc == ReadWait(Parked))
  }

  lemma WokenTaskWaits(s: State, t: TaskId)
    requires QueuesOk(s) && t < |s.tasks|
    ensures WokenOk(s, t)
  {
    if s.tasks[t].pc == HandOff {
      WakeKeepsInv(s.writers, WritePhases(s.tasks), t);
    }
    if s.readers.local[t] != [] {
      WakeKeepsInv(s.readers, ReadPhases(s.tasks), t);
    }
  }

  lemma HandOffShape(s: State, t: TaskId, s': State)
    requires Sized(s) && t < |s.tasks| && WokenOk(s, t) && s.tasks[t].pc == HandOff && Next(s, t, false) == Some(s')
    ensures HandedOff(s, t, s.writers.local[t][0], s')
  {
  }

  /** Task `w` runs as the owner in place of `t`. */
  predicate HandedOff(s: State, t: TaskId, w: TaskId, s': State) {
    && t < |s.tasks| == |s'.tasks| && w < |s.tasks| && w != t
    && s.tasks[t].pc == HandOff && s.tasks[w].pc == WriteWait(Parked)
    && s'.tasks == SetPc(s.tasks, w, Writing)[t := s'.tasks[t]]
    && s'.tasks[t].pc == Ready && s'.tasks[w].pc == Writing && s'.state == s.state
    && t < |s.writers.local| && s.writers.local[t] != []
    && s'.readers == s.readers && s'.writers == DropFront(s.writers, t)
  }

  lemma HandOffQueuesOk(s: State, t: TaskId, s': State)
    requires QueuesOk(s) && t < |s.tasks| && s.tasks[t].pc == HandOff
    requires Next(s, t, false) == Some(s')
    ensures QueuesOk(s')
  {
    WokenTaskWaits(s, t);
    HandOffShape(s, t, s');
    HandedOffQueuesOk(s, t, s.writers.local[t][0], s');
  }

  lemma HandedOffQueuesOk(s: State, t: TaskId, w: TaskId, s': State)
    requires QueuesOk(s) && HandedOff(s, t, w, s') && s.writers.local[t][0] == w
    ensures QueuesOk(s')
  {
    WakeKeepsInv(s.writers, WritePhases(s.tasks), t);
    var mid := SetPc(s.tasks, w, Writing);
    PhasesSet(s.tasks, w, mid[w]);
    PhasesSet(mid, t, s'.tasks[t]);
  }

  lemma WakingShape(s: State, t: TaskId, s': State)
    requires Sized(s) && t < |s.tasks| && WokenOk(s, t) && s.readers.local[t] != [] && Next(s, t, false) == Some(s')
    ensures WokeReader(s, t, s.readers.local[t][0], s')
  {
  }

  predicate WokeReader(s: State, t: TaskId, w: TaskId, s': State) {
    && t < |s.tasks| == |s'.tasks| && w < |s.tasks| && s'.tasks == s.tasks[w := s'.tasks[w]]
    && t < |s.readers.local| && s.readers.local[t] != []
    && s'.writers == s.writers && s'.readers == DropFront(s.readers, t)
    && WritePhase(s'.tasks[w]) == None == WritePhase(s.tasks[w]) && ReadPhase(s'.tasks[w]) == None
    && s'.tasks[w].pc != HandOff && s.tasks[w].pc != HandOff && s.tasks[w].pc != Waking
  }

  lemma WakingQueuesOk(s: State, t: TaskId, s': State)
    requires QueuesOk(s) && t < |s.tasks| && s.readers.local[t] != []
    requires Next(s, t, false) == Some(s')
    ensures QueuesOk(s')
  {
    WokenTaskWaits(s, t);
    WakingShape(s, t, s');
    WokeQueuesOk(s, t, s.readers.local[t][0], s');
  }

  lemma WokeQueuesOk(s: State, t: TaskId, w: TaskId, s': State)
    requires QueuesOk(s) && WokeReader(s, t, w, s') && s.readers.local[t][0] == w
    ensures QueuesOk(s')
  {
    PhasesSet(s.tasks, w, s'.tasks[w]);
    WakeKeepsInv(s.readers, ReadPhases(s.tasks), t);
  }

  lemma NextQueuesOk(s: State, t: TaskId, weak: bool, s': State)
    requires QueuesOk(s) && t < |s.tasks| && Next(s, t, weak) == Some(s')
    ensures QueuesOk(s')
  {
    var pc := s.tasks[t].pc;
    if pc.WriteWait? {
      WriteWaitQueuesOk(s, t, s');
    } else if pc.ReadWait? {
      ReadWaitQueuesOk(s, t, s');
    } else if pc == PopWriter || pc == Broadcast {
      PopQueuesOk(s, t, s');
    } else if pc == HandOff {
      HandOffQueuesOk(s, t, s');
    } else if s.readers.local[t] != [] {
      WakingQueuesOk(s, t, s');
    } else {
      LeftQueuesOk(s, t, s');
    }
  }

  // Accounting

  lemma OwnersSet(tasks: seq<Task>, t: TaskId, task: Task)
    requires t < |tasks|
    ensures Sum(tasks[t := task], Exclusive) == Sum(tasks, Exclusive) - Exclusive(tasks[t]) + Exclusive(task)
    ensures Sum(tasks[t := task], Moving) == Sum(tasks, Moving) - Moving(tasks[t]) + Moving(task)
    ensures Sum(tasks[t := task], Share) == Sum(tasks, Share) - Share(tasks[t]) + Share(task)
  {
    SumUpdate(tasks, t, task, Exclusive);
    SumUpdate(tasks, t, task, Moving);
    SumUpdate(tasks, t, task, Share);
  }

  predicate Shows(state: int, task: Task) {
    && (Exclusive(task) == 1 ==> state == WRITER_LOCKED)
    && (Share(task) == 1 ==> state >= 1)
    && (Moving(task) == 1 ==> state == TRANSITION)
  }

  /** What a task owns, the word shows.  This covers the assertions in lock, unlock and
      unlock_shared. */
  lemma OwnershipShows(s: State, t: TaskId)
    requires Accounted(s) && t < |s.tasks|
    ensures Shows(s.state, s.tasks[t])
  {
    SumAtLeast(s.tasks, t, Exclusive);
    SumAtLeast(s.tasks, t, Share);
    SumAtLeast(s.tasks, t, Moving);
  }

  /** The task gains or loses exactly what the word does. */
  predicate Fair(state: int, task: Task, state': int, task': Task) {
    && Exclusive(task') - Exclusive(task) == Tokens(state') - Tokens(state)
    && Moving(task') - Moving(task) == Movers(state') - Movers(state)
    && Share(task') - Share(task) == Shares(state') - Shares(state)
    && state' >= TRANSITION
    && LoadedOk(task'.pc)
  }

  /** The predicate of wait_if takes the lock exactly when it lets the writer go. */
  lemma WriteWaitFair(s: State, t: TaskId, s': State)
    requires t < |s.tasks| && s.tasks[t].pc.WriteWait? && s.state >= TRANSITION
    requires WriteWaitNext(s, t, s.tasks[t].pc.phase) == Some(s')
    ensures |s'.tasks| == |s.tasks| && s'.tasks == s.tasks[t := s'.tasks[t]]
    ensures Fair(s.state, s.tasks[t], s'.state, s'.tasks[t])
  {
  }

  lemma UnlockFair(s: State, t: TaskId, weak: bool, s': State)
    requires Sized(s) && t < |s.tasks| && UnlockNext(s, t, weak) == Some(s')
    requires s.tasks[t].pc != HandOff && s.readers.local[t] == []
    requires s.state >= TRANSITION && Shows(s.state, s.tasks[t]) && LoadedOk(s.tasks[t].pc)
    ensures |s'.tasks| == |s.tasks| && s'.tasks == s.tasks[t := s'.tasks[t]]
    ensures Fair(s.state, s.tasks[t], s'.state, s'.tasks[t])
  {
  }

  /** Every step of a task on its own account is fair. */
  lemma ActorFair(s: State, t: TaskId, weak: bool, s': State)
    requires Sized(s) && t < |s.tasks| && Next(s, t, weak) == Some(s')
    requires s.tasks[t].pc != HandOff && s.readers.local[t] == []
    requires s.state >= TRANSITION && Shows(s.state, s.tasks[t]) && LoadedOk(s.tasks[t].pc)
    ensures |s'.tasks| == |s.tasks| && s'.tasks == s.tasks[t := s'.tasks[t]]
    ensures Fair(s.state, s.tasks[t], s'.state, s'.tasks[t])
  {
    if s.tasks[t].pc.WriteWait? {
      WriteWaitFair(s, t, s');
    } else if Next(s, t, weak) == UnlockNext(s, t, weak) {
      UnlockFair(s, t, weak, s');
    }
  }

  lemma OneTaskAccounted(s: State, t: TaskId, s': State)
    requires Accounted(s) && t < |s.tasks| == |s'.tasks| && s'.tasks == s.tasks[t := s'.tasks[t]]
    requires Fair(s.state, s.tasks[t], s'.state, s'.tasks[t])
    ensures Accounted(s')
  {
    OwnersSet(s.tasks, t, s'.tasks[t]);
  }

  /** Handing the lock over moves the token from the releaser to the writer. */
  lemma HandOffAccounted(s: State, t: TaskId, s': State)
    requires Sized(s) && Accounted(s) && t < |s.tasks| && WokenOk(s, t) && s.tasks[t].pc == HandOff
    requires UnlockNext(s, t, false) == Some(s')
    ensures Accounted(s')
  {
    HandOffShape(s, t, s');
    HandedOffAccounted(s, t, s.writers.local[t][0], s');
  }

  lemma HandedOffAccounted(s: State, t: TaskId, w: TaskId, s': State)
    requires Accounted(s) && HandedOff(s, t, w, s')
    ensures Accounted(s')
  {
    HandedOffOwners(s.tasks, t, w, s'.tasks[t]);
    assert forall u :: 0 <= u < |s.tasks| && u != t && u != w ==> s'.tasks[u] == s.tasks[u];
  }

  lemma HandedOffOwners(tasks: seq<Task>, t: TaskId, w: TaskId, task: Task)
    requires t < |tasks| && w < |tasks| && w != t
    requires tasks[t].pc == HandOff && tasks[w].pc == WriteWait(Parked) && task.pc == Ready
    ensures var after := SetPc(tasks, w, Writing)[t := task];
            && Sum(after, Exclusive) == Sum(tasks, Exclusive) && Sum(after, Moving) == Sum(tasks, Moving)
            && Sum(after, Share) == Sum(tasks, Share)
  {
    var mid := SetPc(tasks, w, Writing);
    OwnersSet(tasks, w, mid[w]);
    OwnersSet(mid, t, task);
  }

  lemma WakeAccounted(s: State, t: TaskId, s': State)
    requires Sized(s) && Accounted(s) && t < |s.tasks| && WokenOk(s, t) && s.readers.local[t] != []
    requires UnlockNext(s, t, false) == Some(s')
    ensures Accounted(s')
  {
    OneTaskAccounted(s, s.readers.local[t][0], s');
  }

  lemma NextAccounted(s: State, t: TaskId, weak: bool, s': State)
    requires Sized(s) && Accounted(s) && t < |s.tasks| && WokenOk(s, t)
    requires Next(s, t, weak) == Some(s')
    ensures Accounted(s')
  {
    if s.tasks[t].pc == HandOff {
      HandOffAccounted(s, t, s');
    } else if s.readers.local[t] != [] {
      WakeAccounted(s, t, s');
    } else {
      OwnershipShows(s, t);
      ActorFair(s, t, weak, s');
      OneTaskAccounted(s, t, s');
    }
  }

  // Waiting readers and waiting writers

  lemma ReaderLockFree(s: State)
    requires QueuesOk(s) && s.readers.owner == None
    ensures !SomeAt(s.tasks, ReadWait(Pushing))
  {
    forall t | 0 <= t < |s.tasks| ensures s.tasks[t].pc != ReadWait(Pushing) {
      assert HoldsLock(ReadPhases(s.tasks)[t]) <==> s.readers.owner == Some(t);
    }
  }

  /** What a step does to the other tasks: at most one of them stops being parked. */
  lemma OthersStay(s: State, t: TaskId, weak: bool, s': State, u: TaskId)
    requires Sized(s) && t < |s.tasks| && WokenOk(s, t) && Next(s, t, weak) == Some(s')
    requires u < |s.tasks| && u != t
    ensures |s'.tasks| == |s.tasks|
    ensures || s'.tasks[u] == s.tasks[u]
            || (s.tasks[u].pc == WriteWait(Parked) && s'.tasks[u].pc == Writing && !s'.tasks[u].late
                && s.tasks[t].pc == HandOff)
            || (s.tasks[u].pc == ReadWait(Parked) && s'.tasks[u].pc == Load(true) && !s'.tasks[u].late)
  {
  }

  /** What a step does to the acting task, as far as the waiting readers are concerned. */
  lemma ReaderEffect(s: State, t: TaskId, weak: bool, s': State)
    requires Sized(s) && t < |s.tasks| && WokenOk(s, t) && Next(s, t, weak) == Some(s')
    ensures |s'.tasks| == |s.tasks|
    ensures s'.tasks[t].pc == ReadWait(Pushing) ==> s.tasks[t].pc == ReadWait(Recheck) && s.state < 0
    ensures s'.readers.main != [] ==> s.readers.main != [] || s.tasks[t].pc == ReadWait(Pushing)
    ensures s.tasks[t].pc == Broadcast ==> s'.readers.main == []
    ensures s.state < 0 <= s'.state ==> s'.tasks[t].pc == Broadcast || s.tasks[t].pc.Drop? || s.tasks[t].pc.ShareCas?
    ensures s.tasks[t].pc == ReadWait(Recheck) ==> s'.state == s.state
  {
  }

  lemma BroadcastServes(s: State, t: TaskId, weak: bool, s': State)
    requires QueuesOk(s) && t < |s.tasks| && s.tasks[t].pc == Broadcast && Next(s, t, weak) == Some(s')
    ensures ReadersServed(s')
  {
    WokenTaskWaits(s, t);
    ReaderEffect(s, t, weak, s');
    NextQueuesOk(s, t, weak, s');
    ReaderLockFree(s');
  }

  lemma NextReadersServed(s: State, t: TaskId, weak: bool, s': State)
    requires Inv(s) && t < |s.tasks| && Next(s, t, weak) == Some(s')
    ensures ReadersServed(s')
  {
    if s.tasks[t].pc == Broadcast {
      BroadcastServes(s, t, weak, s');
    } else {
      WokenTaskWaits(s, t);
      OwnershipShows(s, t);
      ReaderEffect(s, t, weak, s');
      ReadersOtherwise(s, t, weak, s');
    }
  }

  lemma ReadersOtherwise(s: State, t: TaskId, weak: bool, s': State)
    requires Sized(s) && t < |s.tasks| && WokenOk(s, t) && s.tasks[t].pc != Broadcast && Next(s, t, weak) == Some(s')
    requires |s'.tasks| == |s.tasks|
    ensures SomeAt(s'.tasks, ReadWait(Pushing)) ==>
              SomeAt(s.tasks, ReadWait(Pushing)) || s'.tasks[t].pc == ReadWait(Pushing)
    ensures s.tasks[t].pc == ReadWait(Pushing) ==> SomeAt(s.tasks, ReadWait(Pushing))
    ensures SomeAt(s.tasks, Broadcast) || s'.tasks[t].pc == Broadcast ==> SomeAt(s'.tasks, Broadcast)
  {
    forall u: TaskId | u < |s.tasks| && u != t
      ensures s'.tasks[u].pc == ReadWait(Pushing) ==> SomeAt(s.tasks, ReadWait(Pushing))
      ensures s.tasks[u].pc == Broadcast ==> SomeAt(s'.tasks, Broadcast)
    {
      OthersStay(s, t, weak, s', u);
    }
    assert s.tasks[t].pc == ReadWait(Pushing) ==> SomeAt(s.tasks, ReadWait(Pushing));
    assert s'.tasks[t].pc == Broadcast ==> SomeAt(s'.tasks, Broadcast);
  }

  /** What a step does to the acting task, as far as the waiting writers are concerned. */
  lemma WriterEffect(s: State, t: TaskId, weak: bool, s': State)
    requires Sized(s) && t < |s.tasks| && WokenOk(s, t) && Next(s, t, weak) == Some(s')
    requires s.tasks[t].late ==> PastRecheck(s.tasks[t].pc)
    ensures |s'.tasks| == |s.tasks|
    ensures s'.tasks[t].late ==> PastRecheck(s'.tasks[t].pc)
    ensures PastRecheck(s'.tasks[t].pc) ==>
              || (s.tasks[t].pc == WriteWait(Pushing) && s'.tasks[t].late == s.tasks[t].late)
              || (s.tasks[t].pc == WriteWait(Recheck) && s.state != 0
                  && s'.tasks[t].late == SomeAt(s.tasks, StoreZero))
    ensures s'.tasks[t].pc == StoreZero ==> s.tasks[t].pc == PopWriter
    ensures s'.state == 0 ==>
              s.state == 0 || s.tasks[t].pc == StoreZero || s.tasks[t].pc.Drop? || s.tasks[t].pc.ShareCas?
    ensures s.tasks[t].pc.Drop? && s.tasks[t].pc.current >= 1 && s.state > 0 ==> s'.state != 0
    ensures s.tasks[t].pc.ShareCas? && s.tasks[t].pc.current >= 0 && s.state != 0 ==> s'.state != 0
  {
  }

  /** An empty pop leaves no writer behind: none is queued, none is about to push, and none
      is being handed the lock, because its releaser would own the token as well. */
  lemma EmptyPopFindsNobody(s: State, t: TaskId, s': State)
    requires QueuesOk(s') && Accounted(s') && t < |s'.tasks| && s'.tasks[t].pc == StoreZero
    requires s'.writers.main == [] && s'.writers.owner == None
    ensures forall u :: 0 <= u < |s'.tasks| ==> !PastRecheck(s'.tasks[u].pc)
  {
    forall u: TaskId | u < |s'.tasks| ensures !PastRecheck(s'.tasks[u].pc) {
      assert HoldsLock(WritePhases(s'.tasks)[u]) <==> s'.writers.owner == Some(u);
      if s'.tasks[u].pc == WriteWait(Parked) {
        ParkedIsListed(s'.writers, WritePhases(s'.tasks), u);
        var r: nat :| r < |s'.writers.local| && u in s'.writers.local[r];
        OneToken(s', t, r);
      }
    }
  }

  lemma OneToken(s: State, t: TaskId, u: TaskId)
    requires Accounted(s) && t < |s.tasks| && u < |s.tasks| && t != u && Exclusive(s.tasks[t]) == 1
    ensures Exclusive(s.tasks[u]) == 0
  {
    if t < u {
      SumAtLeastTwo(s.tasks, t, u, Exclusive);
    } else {
      SumAtLeastTwo(s.tasks, u, t, Exclusive);
    }
  }

  lemma PopShape(s: State, t: TaskId, weak: bool, s': State)
    requires Sized(s) && t < |s.tasks| && s.tasks[t].pc == PopWriter && Next(s, t, weak) == Some(s')
    ensures Next(s, t, false) == Some(s') && s'.writers.owner == None
  {
  }

  lemma NobodyAtEmptyPop(s: State, t: TaskId, weak: bool, s': State)
    requires QueuesOk(s) && Accounted(s) && t < |s.tasks| && Next(s, t, weak) == Some(s') && s.tasks[t].pc == PopWriter
    requires |s'.tasks| == |s.tasks| && s'.tasks[t].pc == StoreZero
    ensures forall u :: 0 <= u < |s'.tasks| ==> !PastRecheck(s'.tasks[u].pc)
  {
    PopShape(s, t, weak, s');
    PopQueuesOk(s, t, s');
    NextAccounted(s, t, weak, s');
    EmptyPopFindsNobody(s, t, s');
  }

  lemma OthersLate(s: State, t: TaskId, weak: bool, s': State)
    requires Sized(s) && t < |s.tasks| && WokenOk(s, t) && Next(s, t, weak) == Some(s')
    requires forall u :: 0 <= u < |s.tasks| && s.tasks[u].late ==> PastRecheck(s.tasks[u].pc)
    ensures |s'.tasks| == |s.tasks|
    ensures forall u :: 0 <= u < |s.tasks| && u != t ==>
              && (s'.tasks[u].late ==> PastRecheck(s'.tasks[u].pc))
              && (PastRecheck(s'.tasks[u].pc) ==> s'.tasks[u] == s.tasks[u])
              && (s'.tasks[u].pc == StoreZero ==> SomeAt(s.tasks, StoreZero))
  {
    forall u: TaskId | u < |s.tasks| && u != t
      ensures |s'.tasks| == |s.tasks|
      ensures s'.tasks[u].late ==> PastRecheck(s'.tasks[u].pc)
      ensures PastRecheck(s'.tasks[u].pc) ==> s'.tasks[u] == s.tasks[u]
      ensures s'.tasks[u].pc == StoreZero ==> SomeAt(s.tasks, StoreZero)
    {
      OthersStay(s, t, weak, s', u);
    }
    WriterEffect(s, t, weak, s');
  }

  lemma NextWaitersLate(s: State, t: TaskId, weak: bool, s': State)
    requires Inv(s) && t < |s.tasks| && Next(s, t, weak) == Some(s')
    ensures WaitersLate(s')
  {
    WokenTaskWaits(s, t);
    OwnershipShows(s, t);
    WriterEffect(s, t, weak, s');
    OthersLate(s, t, weak, s');
    if s'.tasks[t].pc == StoreZero {
      NobodyAtEmptyPop(s, t, weak, s');
    } else {
      StaysLate(s, t, s');
    }
  }

  /** No empty pop: whoever is past its re-check was there before, or comes from it now. */
  lemma StaysLate(s: State, t: TaskId, s': State)
    requires t < |s.tasks| == |s'.tasks| && WaitersLate(s) && s'.tasks[t].pc != StoreZero
    requires s'.tasks[t].late ==> PastRecheck(s'.tasks[t].pc)
    requires PastRecheck(s'.tasks[t].pc) ==>
              || (s.tasks[t].pc == WriteWait(Pushing) && s'.tasks[t].late == s.tasks[t].late)
              || (s.tasks[t].pc == WriteWait(Recheck) && s.state != 0
                  && s'.tasks[t].late == SomeAt(s.tasks, StoreZero))
    requires s'.state == 0 ==> s.state == 0 || s.tasks[t].pc == StoreZero
    requires s.tasks[t].pc == WriteWait(Recheck) && s.state != 0 ==> s'.state != 0
    requires forall u :: 0 <= u < |s.tasks| && u != t ==>
              && (s'.tasks[u].late ==> PastRecheck(s'.tasks[u].pc))
              && (PastRecheck(s'.tasks[u].pc) ==> s'.tasks[u] == s.tasks[u])
              && (s'.tasks[u].pc == StoreZero ==> SomeAt(s.tasks, StoreZero))
    ensures WaitersLate(s')
  {
    assert s.tasks[t].pc == StoreZero ==> SomeAt(s.tasks, StoreZero);
  }

  lemma NextKeepsInv(s: State, t: TaskId, weak: bool, s': State)
    requires Inv(s) && t < |s.tasks| && Next(s, t, weak) == Some(s')
    ensures Inv(s')
  {
    WokenTaskWaits(s, t);
    NextQueuesOk(s, t, weak, s');
    NextAccounted(s, t, weak, s');
    NextReadersServed(s, t, weak, s');
    NextWaitersLate(s, t, weak, s');
  }
}
