/** The queue object that the primitives hold, one atomic action per method.  Its list is the
    sequence that WaitQueue's linked list is proved to hold. */
module SuspendQueue {
  import opened WaitProtocol

  /** What one action of wait_if does to the caller. */
  datatype Move = Stay | Go(phase: Phase) | Leave

  class Queue {
    var main: seq<TaskId>
    var lock: Option<TaskId>
    var local: seq<seq<TaskId>>
    var pushed: seq<TaskId>
    var popped: seq<TaskId>

    ghost function View(): Waiters
      reads this
    {
      Waiters(main, lock, local, pushed, popped)
    }

    constructor (tasks: nat)
      ensures View() == NoWaiters(tasks)
    {
      main, lock, pushed, popped := [], None, [], [];
      local := seq(tasks, _ => []);
    }

    /** One action of wait_if, `pred` being what the predicate answers at this moment. */
    method WaitStep(t: TaskId, phase: Phase, pred: bool) returns (move: Move)
      modifies this
      ensures match WaitIf(old(View()), t, phase, pred)
              case Blocked => move == Stay && View() == old(View())
              case Continue(q, p) => move == Go(p) && View() == q
              case Return(q) => move == Leave && View() == q
    {
      match phase
      case FastPath =>
        return if pred then Go(Locking) else Leave;
      case Locking =>
        if lock.Some? {
          return Stay;
        }
        lock := Some(t);
        return Go(Recheck);
      case Recheck =>
        if pred {
          return Go(Pushing);
        }
        lock := None;
        return Go(SelfResume);
      case Pushing =>
        main, pushed := main + [t], pushed + [t];
        lock := None;
        return Go(Parked);
      case Parked =>
        return Stay;
      case SelfResume =>
        return Leave;
    }

    /** The critical section of a resume_* call: pops up to n tasks into r's local list. */
    method Pop(r: TaskId, n: nat) returns (done: bool)
      requires r < |local|
      modifies this
      ensures match Take(old(View()), r, n)
              case None => !done && View() == old(View())
              case Some(q) => done && View() == q
    {
      if lock.Some? {
        return false;
      }
      var count, front := 0, [];
      while count < n && main != []
        invariant count <= n && lock == None && count <= |old(main)|
        invariant front == old(main)[..count] && main == old(main)[count..]
        invariant local == old(local) && pushed == old(pushed) && popped == old(popped)
      {
        front, main := front + [main[0]], main[1..];
        count := count + 1;
      }
      local, popped := local[r := front], popped + front;
      return true;
    }

    /** One round of do_resume_all: who runs again. */
    method ResumeNext(r: TaskId) returns (task: Option<TaskId>)
      requires r < |local|
      modifies this
      ensures old(local[r]) == [] ==> task == None && View() == old(View())
      ensures old(local[r]) != [] ==> task == Some(old(local[r])[0]) && View() == DropFront(old(View()), r)
    {
      if local[r] == [] {
        return None;
      }
      task := Some(local[r][0]);
      local := local[r := local[r][1..]];
    }
  }
}
