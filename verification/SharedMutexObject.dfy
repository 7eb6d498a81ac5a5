/** The reader-writer mutex as the object its users hold, with one method per atomic action. */
module SharedMutexObject {
  import opened Runs
  import opened WaitProtocol
  import opened SuspendQueue
  import opened SharedMutex
  import Theorems = SharedMutexTheorems

  /** Task t has done what it does next, or was found to be blocked. */
  ghost predicate Follows(before: State, t: TaskId, weak: bool, moved: bool, after: State)
    requires Sized(before) && t < |before.tasks|
  {
    match Next(before, t, weak)
    case None => !moved && after == before
    case Some(s) => moved && after == s
  }

  class ReadWriteLock {
    var m_state: int
    const m_writer_waiters: Queue
    const m_reader_waiters: Queue
    var tasks: seq<Task>

    ghost function View(): State
      reads this, m_writer_waiters, m_reader_waiters
    {
      State(m_state, m_writer_waiters.View(), m_reader_waiters.View(), tasks)
    }

    ghost predicate Valid()
      reads this, m_writer_waiters, m_reader_waiters
    {
      Inv(View()) && m_writer_waiters != m_reader_waiters
    }

    ghost predicate Exists(t: TaskId)
      reads this, m_writer_waiters, m_reader_waiters
    {
      && m_writer_waiters != m_reader_waiters
      && t < |tasks| == |m_writer_waiters.local| == |m_reader_waiters.local|
    }

    constructor (programs: seq<seq<Job>>)
      ensures Init(View()) && fresh(m_writer_waiters) && fresh(m_reader_waiters)
      ensures m_writer_waiters != m_reader_waiters && |tasks| == |programs|
      ensures forall t :: 0 <= t < |tasks| ==> tasks[t].todo == programs[t]
    {
      m_state := 0;
      m_writer_waiters := new Queue(|programs|);
      m_reader_waiters := new Queue(|programs|);
      tasks := seq(|programs|, i requires 0 <= i < |programs| => Task(programs[i], Ready, false));
    }

    method Goto(t: TaskId, pc: Pc)
      modifies `tasks
      ensures tasks == SetPc(old(tasks), t, pc)
    {
      if t < |tasks| {
        tasks := tasks[t := Task(tasks[t].todo, pc, false)];
      }
    }

    method Call(t: TaskId) returns (moved: bool)
      requires Exists(t) && tasks[t].pc == Ready
      modifies `tasks
      ensures Follows(old(View()), t, false, moved, View())
    {
      if tasks[t].todo == [] {
        return false;
      }
      tasks := tasks[t := Task(tasks[t].todo[1..], FirstAction(tasks[t].todo[0]), false)];
      return true;
    }

    /** try_lock: compare_exchange_strong of 0 for k_writer_locked. */
    method TryLock() returns (success: bool)
      modifies `m_state
      ensures success <==> old(m_state) == 0
      ensures m_state == if success then WRITER_LOCKED else old(m_state)
    {
      success := m_state == 0;
      if success {
        m_state := WRITER_LOCKED;
      }
    }

    method Lock(t: TaskId)
      requires Exists(t) && tasks[t].pc.TryLock?
      modifies `m_state, `tasks
      ensures Follows(old(View()), t, false, true, View())
    {
      var blocking := tasks[t].pc.blocking;
      var success := TryLock();
      if success {
        Goto(t, Writing);
      } else {
        Goto(t, if blocking then WriteWait(FastPath) else Ready);
      }
    }

    /** wait_if with the predicate `!try_lock()`, evaluated in the two phases that ask for it. */
    method WriteWaitStep(t: TaskId) returns (moved: bool)
      requires Exists(t) && tasks[t].pc.WriteWait?
      modifies this, m_writer_waiters
      ensures Follows(old(View()), t, false, moved, View())
    {
      var phase, pred := tasks[t].pc.phase, false;
      if phase == FastPath || phase == Recheck {
        var success := TryLock();
        pred := !success;
      }
      var move := m_writer_waiters.WaitStep(t, phase, pred);
      match move
      case Stay => return false;
      case Go(p) =>
        var late := if p == Pushing then SomeAt(tasks, StoreZero) else tasks[t].late;
        tasks := tasks[t := Task(tasks[t].todo, WriteWait(p), late)];
        return true;
      case Leave =>
        Goto(t, Writing);
        return true;
    }

    /** try_lock_shared's loop test on a value just read. */
    method Test(t: TaskId, state: int, blocking: bool)
      modifies `tasks
      ensures tasks == SetPc(old(tasks), t, AfterLoad(state, blocking))
    {
      if state >= 0 {
        Goto(t, ShareCas(state, blocking));
      } else if blocking {
        Goto(t, ReadWait(FastPath));
      } else {
        Goto(t, Ready);
      }
    }

    /** try_lock_shared's load; it gives up exactly on a negative word. */
    method LoadShared(t: TaskId)
      requires Exists(t) && tasks[t].pc.Load?
      modifies `tasks
      ensures Follows(old(View()), t, false, true, View())
      ensures t < |tasks| && (tasks[t].pc == Ready <==> m_state < 0 && !old(tasks[t].pc).blocking)
    {
      Test(t, m_state, tasks[t].pc.blocking);
    }

    /** One round of its exchange loop: a share is one more on the word loaded; a failed exchange
        gives up exactly on a negative word. */
    method ExchangeShared(t: TaskId, weak: bool)
      requires Exists(t) && tasks[t].pc.ShareCas?
      modifies `m_state, `tasks
      ensures Follows(old(View()), t, weak, true, View())
      ensures var won := old(m_state) == old(tasks[t].pc).current && !weak;
              && t < |tasks| && m_state == old(m_state) + (if won then 1 else 0)
              && (tasks[t].pc == Reading <==> won)
              && (tasks[t].pc == Ready <==> !won && m_state < 0 && !old(tasks[t].pc).blocking)
    {
      var state := tasks[t].pc.current;
      if m_state == state && !weak {
        m_state := state + 1;
        Goto(t, Reading);
      } else {
        Test(t, m_state, tasks[t].pc.blocking);
      }
    }

    method ReadWaitStep(t: TaskId) returns (moved: bool)
      requires Exists(t) && tasks[t].pc.ReadWait?
      modifies `tasks, m_reader_waiters
      ensures Follows(old(View()), t, false, moved, View())
    {
      var move := m_reader_waiters.WaitStep(t, tasks[t].pc.phase, m_state < 0);
      match move
      case Stay => return false;
      case Go(phase) =>
        Goto(t, ReadWait(phase));
        return true;
      case Leave =>
        Goto(t, Load(true));
        return true;
    }

    /** Entering unlock; its assertion holds. */
    method Unlock(t: TaskId)
      requires Exists(t) && tasks[t].pc == Writing && Valid()
      modifies `tasks
      ensures m_state == WRITER_LOCKED && Follows(old(View()), t, false, true, View())
    {
      OwnershipShows(View(), t);
      Goto(t, PopWriter);
    }

    method LoadToDrop(t: TaskId)
      requires Exists(t) && tasks[t].pc == Reading
      modifies `tasks
      ensures Follows(old(View()), t, false, true, View())
    {
      Goto(t, Drop(m_state));
    }

    /** One round of unlock_shared's loop; its assertion holds. */
    method DropShare(t: TaskId, weak: bool)
      requires Exists(t) && tasks[t].pc.Drop? && Valid()
      modifies `m_state, `tasks
      ensures old(tasks[t].pc).current >= 1 && Follows(old(View()), t, weak, true, View())
    {
      var state := tasks[t].pc.current;
      assert LoadedOk(tasks[t].pc);
      if state > 1 {
        if m_state == state && !weak {
          m_state := state - 1;
          Goto(t, Ready);
          return;
        }
      } else if m_state == state && !weak {
        m_state := TRANSITION;
        Goto(t, InTransition);
        return;
      }
      Goto(t, Drop(m_state));
    }

    method StoreLocked(t: TaskId)
      requires Exists(t) && tasks[t].pc == InTransition
      modifies `m_state, `tasks
      ensures Follows(old(View()), t, false, true, View())
    {
      m_state := WRITER_LOCKED;
      Goto(t, PopWriter);
    }

    /** The critical section of resume_one, and the test of its result. */
    method PopOneWriter(t: TaskId) returns (moved: bool)
      requires Exists(t) && tasks[t].pc == PopWriter
      modifies `tasks, m_writer_waiters
      ensures Follows(old(View()), t, false, moved, View())
    {
      moved := m_writer_waiters.Pop(t, 1);
      if moved {
        Goto(t, if m_writer_waiters.local[t] == [] then StoreZero else HandOff);
      }
    }

    method ResumeWriter(t: TaskId) returns (moved: bool)
      requires Exists(t) && tasks[t].pc == HandOff
      modifies `tasks, m_writer_waiters
      ensures Follows(old(View()), t, false, moved, View())
    {
      var task := m_writer_waiters.ResumeNext(t);
      if task == None {
        return false;
      }
      Goto(task.value, Writing);
      Goto(t, Ready);
      return true;
    }

    method Free(t: TaskId)
      requires Exists(t) && tasks[t].pc == StoreZero
      modifies `m_state, `tasks
      ensures Follows(old(View()), t, false, true, View())
    {
      m_state := 0;
      Goto(t, Broadcast);
    }

    /** The critical section of resume_all on the readers' queue. */
    method PopReaders(t: TaskId) returns (moved: bool)
      requires Exists(t) && tasks[t].pc == Broadcast
      modifies `tasks, m_reader_waiters
      ensures Follows(old(View()), t, false, moved, View())
    {
      moved := m_reader_waiters.Pop(t, |m_reader_waiters.main|);
      if moved {
        Goto(t, Waking);
      }
    }

    method ResumeReader(t: TaskId)
      requires Exists(t) && tasks[t].pc == Waking
      modifies `tasks, m_reader_waiters
      ensures Follows(old(View()), t, false, true, View())
    {
      var task := m_reader_waiters.ResumeNext(t);
      match task
      case None => Goto(t, Ready);
      case Some(w) => Goto(w, Load(true));
    }

    /** Whatever task t does next. */
    method Act(t: TaskId, weak: bool) returns (moved: bool)
      requires Exists(t) && Valid()
      modifies this, m_writer_waiters, m_reader_waiters
      ensures Follows(old(View()), t, weak, moved, View())
    {
      moved := true;
      match tasks[t].pc
      case Ready => moved := Call(t);
      case TryLock(_) => Lock(t);
      case WriteWait(_) => moved := WriteWaitStep(t);
      case Writing => Unlock(t);
      case Load(_) => LoadShared(t);
      case ShareCas(_, _) => ExchangeShared(t, weak);
      case ReadWait(_) => moved := ReadWaitStep(t);
      case Reading => LoadToDrop(t);
      case Drop(_) => DropShare(t, weak);
      case InTransition => StoreLocked(t);
      case PopWriter => moved := PopOneWriter(t);
      case HandOff => moved := ResumeWriter(t);
      case StoreZero => Free(t);
      case Broadcast => moved := PopReaders(t);
      case Waking => ResumeReader(t);
    }

    method Step(t: TaskId, weak: bool) returns (moved: bool)
      requires Valid() && t < |tasks|
      modifies this, m_writer_waiters, m_reader_waiters
      ensures Valid() && Follows(old(View()), t, weak, moved, View())
      ensures moved ==> Theorems.Steps(old(View()), View())
    {
      ghost var before := View();
      moved := Act(t, weak);
      if moved {
        NextKeepsInv(before, t, weak, View());
      }
    }

    /** The object under any schedule: what it goes through is a run of the protocol, so that
        every theorem about runs is about it. */
    method Run(schedule: seq<(TaskId, bool)>) returns (ghost run: seq<State>)
      requires Init(View()) && m_writer_waiters != m_reader_waiters
      modifies this, m_writer_waiters, m_reader_waiters
      ensures Valid() && IsRun(Init, Theorems.Steps, run)
      ensures run[0] == old(View()) && run[|run| - 1] == View()
    {
      run := [View()];
      InitHasInv(View());
      for i := 0 to |schedule|
        invariant Valid() && IsRun(Init, Theorems.Steps, run)
        invariant run[0] == old(View()) && run[|run| - 1] == View()
      {
        var (t, weak) := schedule[i];
        if t < |tasks| {
          var moved := Step(t, weak);
          if moved {
            ExtendRun(Init, Theorems.Steps, run, View());
            run := run + [View()];
          }
        }
      }
    }
  }
}
