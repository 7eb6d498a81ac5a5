/** The wait queue on the heap: the critical section of `wait_if` and the `resume_*` calls.
    Each does to the linked list what the protocol does to its sequence of tasks. */
module WaitQueue {
  import opened IntrusiveList
  import opened WaitProtocol

  /** tbb::task::resume: the task runs on, and its node goes with its stack frame. */
  method ResumeTask(node: Node<TaskId>) returns (task: TaskId)
    requires node.alive
    modifies node
    ensures task == old(node.value) && !node.alive
  {
    task := node.value;
    node.alive := false;
  }

  /** One round of `do_resume_all`.  The node is off the list before its task runs, and after
      that it is dead, so no list operation can touch it. */
  method ResumeFront(waiters: List<TaskId>) returns (resumed: Option<TaskId>)
    requires waiters.Valid()
    modifies waiters, waiters.nodes
    ensures waiters.Valid()
    ensures resumed.None? <==> old(waiters.nodes) == []
    ensures resumed.None? ==> waiters.nodes == []
    ensures resumed.Some? ==>
              && waiters.nodes == old(waiters.nodes)[1..]
              && waiters.contents == old(waiters.contents)[1..]
              && resumed.value == old(waiters.contents)[0]
              && !old(waiters.nodes)[0].alive && old(waiters.nodes)[0] !in waiters.nodes
    ensures forall n <- old(waiters.nodes) :: n.alive ==> old(n.alive)
  {
    var waiter := waiters.PopFront();
    if waiter == null {
      return None;
    }
    var task := ResumeTask(waiter);
    return Some(task);
  }

  /** The first |resumed| of the nodes in `all` are off the list, and their tasks running. */
  ghost predicate Resumed(waiters: List<TaskId>, all: seq<Node<TaskId>>, values: seq<TaskId>, resumed: seq<TaskId>)
    reads waiters, waiters.nodes
  {
    && waiters.Valid() && |values| == |all| && |resumed| <= |all|
    && waiters.nodes == all[|resumed|..] && waiters.contents == values[|resumed|..]
    && resumed == values[..|resumed|]
  }

  method ResumeRound(waiters: List<TaskId>, resumed: seq<TaskId>,
                     ghost all: seq<Node<TaskId>>, ghost values: seq<TaskId>)
    returns (more: bool, resumed': seq<TaskId>)
    requires Resumed(waiters, all, values, resumed)
    modifies waiters, waiters.nodes
    ensures Resumed(waiters, all, values, resumed')
    ensures more <==> |resumed| < |all|
    ensures |resumed'| == if more then |resumed| + 1 else |resumed|
  {
    var task := ResumeFront(waiters);
    more := task.Some?;
    resumed' := if more then resumed + [task.value] else resumed;
  }

  /** Resumes a popped list front to back. */
  method DoResumeAll(waiters: List<TaskId>) returns (resumed: seq<TaskId>)
    requires waiters.Valid()
    modifies waiters, waiters.nodes
    ensures waiters.Valid() && waiters.nodes == []
    ensures resumed == old(waiters.contents)
  {
    resumed := [];
    ghost var all, values := waiters.nodes, waiters.contents;
    var more := true;
    while more
      invariant Resumed(waiters, all, values, resumed)
      invariant !more ==> |resumed| == |all|
      decreases |all| - |resumed|, more
    {
      more, resumed := ResumeRound(waiters, resumed, all, values);
    }
  }

  class Queue {
    const m_waiters: List<TaskId>

    ghost predicate Valid()
      reads this, m_waiters, m_waiters.nodes
    {
      m_waiters.Valid()
    }

    ghost function Contents(): seq<TaskId>
      reads this, m_waiters
    {
      m_waiters.contents
    }

    constructor ()
      ensures Valid() && Contents() == []
    {
      m_waiters := new List<TaskId>();
    }

    /** What `wait_if` does under the lock once the re-check told it to wait. */
    method PushWaiter(node: Node<TaskId>, task: TaskId)
      requires Valid() && node !in m_waiters.nodes && node.next == null && node.alive
      modifies m_waiters, m_waiters.nodes, node
      ensures Valid() && Contents() == old(Contents()) + [task]
      ensures m_waiters.nodes == old(m_waiters.nodes) + [node]
    {
      node.value := task;
      m_waiters.PushBack(node);
    }

    method ResumeOne() returns (ok: bool, resumed: seq<TaskId>)
      requires Valid()
      modifies m_waiters, m_waiters.nodes
      ensures Valid() && ok == (old(Contents()) != [])
      ensures resumed == Front(old(Contents()), 1) && Contents() == Back(old(Contents()), 1)
    {
      var waiter := m_waiters.PopFront();
      if waiter != null {
        var task := ResumeTask(waiter);
        return true, [task];
      }
      return false, [];
    }

    method ResumeAll() returns (resumed: seq<TaskId>)
      requires Valid()
      modifies m_waiters, m_waiters.nodes
      ensures Valid() && Contents() == [] && resumed == old(Contents())
    {
      var waitersToResume := new List<TaskId>();
      waitersToResume.Swap(m_waiters);
      resumed := DoResumeAll(waitersToResume);
    }

    /** Moves the first min(n, length) nodes to a local list, in order, and resumes them. */
    method ResumeN(n: nat) returns (count: nat, resumed: seq<TaskId>)
      requires Valid()
      modifies m_waiters, m_waiters.nodes
      ensures Valid() && count == Min(n, |old(Contents())|)
      ensures resumed == Front(old(Contents()), n) && Contents() == Back(old(Contents()), n)
      ensures m_waiters.nodes == old(m_waiters.nodes)[count..]
    {
      count, resumed := 0, [];
      if n == 0 {
        return;
      }
      var waitersToResume;
      count, waitersToResume := Detach(m_waiters, n);
      resumed := DoResumeAll(waitersToResume);
    }
  }

  /** `resume_n` has moved the first `k` nodes of `all`, with their values, to the local list. */
  ghost predicate Moved(from: List<TaskId>, to: List<TaskId>, all: seq<Node<TaskId>>, values: seq<TaskId>, k: nat)
    reads from, to, all
  {
    && from != to && Distinct(all) && |values| == |all| && k <= |all|
    && from.nodes == all[k..] && from.contents == values[k..]
    && to.nodes == all[..k] && to.contents == values[..k]
    && from.Valid() && to.Valid()
  }

  /** One round of the loop of `resume_n`: the node popped can be pushed. */
  method MoveOne(from: List<TaskId>, to: List<TaskId>,
                 ghost all: seq<Node<TaskId>>, ghost values: seq<TaskId>, ghost k: nat)
    returns (moved: bool)
    requires Moved(from, to, all, values, k)
    modifies from, to, all
    ensures moved == (k < |all|)
    ensures Moved(from, to, all, values, if moved then k + 1 else k)
  {
    var waiter := from.PopFront();
    if waiter == null {
      return false;
    }
    to.PushBack(waiter);
    return true;
  }

  /** The loop of `resume_n`. */
  method MoveFront(from: List<TaskId>, to: List<TaskId>, n: nat) returns (count: nat)
    requires from.Valid() && to.Valid() && from != to && to.nodes == []
    modifies from, from.nodes, to
    ensures from.Valid() && to.Valid() && count == Min(n, |old(from.contents)|)
    ensures from.nodes == old(from.nodes)[count..] && from.contents == Back(old(from.contents), n)
    ensures to.nodes == old(from.nodes)[..count] && to.contents == Front(old(from.contents), n)
  {
    count := 0;
    ghost var all, values := from.nodes, from.contents;
    var more := true;
    while count < n && more
      invariant count <= n && Moved(from, to, all, values, count)
      invariant !more ==> count == |all|
      decreases n - count, more
    {
      more := MoveOne(from, to, all, values, count);
      if more {
        count := count + 1;
      }
    }
  }

  /** What `resume_n` does under the lock. */
  method Detach(from: List<TaskId>, n: nat) returns (count: nat, to: List<TaskId>)
    requires from.Valid()
    modifies from, from.nodes
    ensures fresh(to) && from.Valid() && to.Valid() && count == Min(n, |old(from.contents)|)
    ensures from.nodes == old(from.nodes)[count..] && from.contents == Back(old(from.contents), n)
    ensures to.nodes == old(from.nodes)[..count] && to.contents == Front(old(from.contents), n)
    ensures forall node :: node in from.nodes ==> node !in to.nodes
  {
    to := new List<TaskId>();
    count := MoveFront(from, to, n);
    assert Distinct(old(from.nodes));
  }
}
