/** The whole wait queue on the heap: the main list, and the local lists of any number of
    resumers at work at the same time.  All their nodes are apart from each other and alive; a
    node leaves them for good when its task is resumed, and nothing touches it afterwards.
    Every action does to the lists what the protocol does to its sequences. */
module WaitLists {
  import opened IntrusiveList
  import opened Runs
  import opened WaitProtocol
  import WaitQueue

  /** Where the nodes are when `moved` have gone to list i. */
  ghost function Moved(home: map<Node<TaskId>, nat>, moved: seq<Node<TaskId>>, i: nat): map<Node<TaskId>, nat> {
    map n | n in home.Keys :: if n in moved then i else home[n]
  }

  /** What wait_if and the resumers do to the queue. */
  datatype Action =
    | Lock(t: TaskId)              // wait_if takes the lock
    | GoOn(t: TaskId)              // its re-check lets it go on
    | Sleep(t: TaskId)             // its re-check does not, and it pushes its node
    | PopSome(r: TaskId, n: nat)   // the critical section of resume_n
    | PopEvery(r: TaskId)          // the critical section of resume_all
    | Resume(r: TaskId)            // one round of do_resume_all

  function AfterWait(p: Progress): Option<Waiters> {
    match p
    case Continue(q, _) => Some(q)
    case _ => None
  }

  function Does(q: Waiters, a: Action): Option<Waiters> {
    match a
    case Lock(t) => AfterWait(WaitIf(q, t, Locking, true))
    case GoOn(t) => if q.owner == Some(t) then AfterWait(WaitIf(q, t, Recheck, false)) else None
    case Sleep(t) => if q.owner == Some(t) then AfterWait(WaitIf(q, t, Pushing, true)) else None
    case PopSome(r, n) => if r < |q.local| && q.local[r] == [] then Take(q, r, n) else None
    case PopEvery(r) => if r < |q.local| && q.local[r] == [] then TakeAll(q, r) else None
    case Resume(r) => if r < |q.local| && q.local[r] != [] then Some(DropFront(q, r)) else None
  }

  ghost predicate Acts(q: Waiters, q': Waiters) {
    exists a :: Does(q, a) == Some(q')
  }

  ghost predicate Empty(q: Waiters) {
    q == NoWaiters(|q.local|)
  }

  class Lists {
    /** The main list first, then the local list of each resumer. */
    const lists: seq<List<TaskId>>
    var lock: Option<TaskId>
    ghost var pushed: seq<TaskId>
    ghost var popped: seq<TaskId>
    /** Which list a node is in, and the nodes whose tasks have been resumed. */
    ghost var home: map<Node<TaskId>, nat>
    ghost var gone: set<Node<TaskId>>

    /** List i is well formed, alive and apart from the others. */
    ghost predicate Holds(i: nat)
      requires i < |lists|
      reads this, lists, home.Keys
    {
      && (forall n :: n in lists[i].nodes ==> n in home.Keys && home[n] == i)
      && lists[i].Valid()
    }

    ghost predicate Valid()
      reads this, lists, home.Keys, gone
    {
      && 0 < |lists|
      && (forall i, j :: 0 <= i < j < |lists| ==> lists[i] != lists[j])
      && (forall i :: 0 <= i < |lists| ==> Holds(i))
      && gone !! home.Keys && forall n :: n in gone ==> !n.alive
    }

    ghost function View(): Waiters
      requires 0 < |lists|
      reads this, lists
    {
      Waiters(lists[0].contents, lock,
              seq(|lists| - 1, r requires 0 <= r < |lists| - 1 reads this, lists => lists[r + 1].contents),
              pushed, popped)
    }

    /** A list that has not changed, nor any of its nodes, is as good as before. */
    twostate lemma Kept(i: nat)
      requires i < |lists| && old(Holds(i)) && unchanged(lists[i])
      requires forall n :: n in lists[i].nodes ==> unchanged(n) && n in home.Keys && home[n] == i
      ensures Holds(i)
    {
      forall k | 0 <= k < |lists[i].nodes| ensures unchanged(lists[i].nodes[k]) {
        assert lists[i].nodes[k] in lists[i].nodes;
      }
    }

    constructor (resumers: nat)
      ensures Valid() && View() == NoWaiters(resumers) && gone == {} && home == map[]
    {
      var all: seq<List<TaskId>> := [];
      while |all| <= resumers
        invariant |all| <= resumers + 1 && fresh(all)
        invariant forall i :: 0 <= i < |all| ==> all[i].Valid() && all[i].nodes == []
        invariant forall i, j :: 0 <= i < j < |all| ==> all[i] != all[j]
      {
        var list := new List<TaskId>();
        all := all + [list];
      }
      lists := all;
      lock, pushed, popped, home, gone := None, [], [], map[], {};
    }

    /** The last action of wait_if under the lock, with a node that is the caller's own. */
    method Push(t: TaskId, node: Node<TaskId>)
      requires Valid() && node.alive && node.next == null && node !in home.Keys && node !in gone
      modifies this`lock, this`pushed, this`home, lists[0], lists[0].nodes, node
      ensures Valid() && gone == old(gone) && home == old(home)[node := 0]
      ensures Continue(View(), Parked) == WaitIf(old(View()), t, Pushing, true)
    {
      assert Holds(0);
      node.value := t;
      Kept(0);
      lists[0].PushBack(node);
      lock, pushed, home := None, pushed + [t], home[node := 0];
      forall i: nat | 0 < i < |lists| ensures Holds(i) {
        Kept(i);
      }
      assert View().local == old(View()).local;
    }

    /** The nodes of the main list are split between it and the list of a resumer. */
    twostate lemma TakenApart(r: nat)
      requires 0 < r < |lists| && old(Valid()) && old(lists[r].nodes) == []
      requires lists[r].nodes + lists[0].nodes == old(lists[0].nodes)
      requires home == Moved(old(home), lists[r].nodes, r) && lists[0].Valid() && lists[r].Valid()
      ensures Holds(0) && Holds(r)
    {
      assert old(Holds(0));
      var all, k := old(lists[0].nodes), |lists[r].nodes|;
      assert Distinct(all);
      forall n | n in lists[0].nodes ensures n in home.Keys && home[n] == 0 {
        var i :| 0 <= i < |lists[0].nodes| && lists[0].nodes[i] == n;
        assert all[k + i] == n && n in all;
        assert forall j :: 0 <= j < k ==> lists[r].nodes[j] == all[j];
      }
      forall n | n in lists[r].nodes ensures n in home.Keys && home[n] == r {
        assert n in all;
      }
    }

    /** What both ways of popping do: the first k nodes go to list r, all other lists stay. */
    twostate predicate Took(r: nat, k: nat)
      requires 0 < r < |lists| && 0 < |lists|
      reads this, lists
    {
      && k <= old(|lists[0].nodes|) && k <= old(|lists[0].contents|)
      && lists[0].contents == old(lists[0].contents)[k..] && lists[r].contents == old(lists[0].contents)[..k]
      && forall i :: 0 < i < |lists| && i != r ==> lists[i].contents == old(lists[i].contents)
    }

    twostate lemma TookView(r: nat)
      requires 0 < r < |lists| && Took(r, |lists[r].contents|)
      requires lock == old(lock) && pushed == old(pushed) && popped == old(popped) + lists[r].contents
      ensures var k := |lists[r].contents|;
              && View().main == old(View()).main[k..] && View().popped == old(View()).popped + old(View()).main[..k]
              && View().local == old(View()).local[r - 1 := old(View()).main[..k]]
      ensures View().owner == old(View()).owner && View().pushed == old(View()).pushed
    {
    }

    twostate lemma OthersKept(r: nat)
      requires 0 < r < |lists| && old(Valid())
      requires forall n :: n in lists[r].nodes ==> n in old(lists[0].nodes)
      requires home == Moved(old(home), lists[r].nodes, r)
      requires forall i :: 0 < i < |lists| && i != r ==> unchanged(lists[i])
      requires forall n :: n in old(home.Keys) && n !in old(lists[0].nodes) ==> unchanged(n)
      ensures forall i :: 0 < i < |lists| && i != r ==> Holds(i)
    {
      forall i: nat | 0 < i < |lists| && i != r ensures Holds(i) {
        assert old(Holds(0)) && old(Holds(i));
        Kept(i);
      }
    }

    method MoveNodes(r: nat, n: nat)
      requires 0 < r < |lists| && lists[0] != lists[r] && lists[0].Valid() && lists[r].Valid() && lists[r].nodes == []
      modifies lists[0], lists[0].nodes, lists[r]
      ensures lists[0].Valid() && lists[r].Valid()
      ensures lists[r].nodes + lists[0].nodes == old(lists[0].nodes)
      ensures lists[r].contents == Front(old(lists[0].contents), n)
      ensures lists[0].contents == Back(old(lists[0].contents), n)
    {
      var count := WaitQueue.MoveFront(lists[0], lists[r], n);
    }

    /** The loop of resume_n. */
    method MoveFront(r: nat, n: nat)
      requires Valid() && 0 < r < |lists| && lists[r].nodes == []
      modifies this`popped, this`home, lists[0], lists[0].nodes, lists[r]
      ensures popped == old(popped) + lists[r].contents
      ensures Valid() && home.Keys == old(home.Keys) && Took(r, Min(n, |old(lists[0].contents)|))
    {
      assert Holds(0) && Holds(r);
      MoveNodes(r, n);
      popped, home := popped + lists[r].contents, Moved(home, lists[r].nodes, r);
      TakenApart(r);
      OthersKept(r);
    }

    /** The swap of resume_all. */
    method MoveAll(r: nat)
      requires Valid() && 0 < r < |lists| && lists[r].nodes == []
      modifies this`popped, this`home, lists[0], lists[r]
      ensures popped == old(popped) + lists[r].contents
      ensures Valid() && home.Keys == old(home.Keys) && Took(r, |old(lists[0].contents)|)
    {
      assert Holds(0) && Holds(r);
      lists[r].Swap(lists[0]);
      popped, home := popped + lists[r].contents, Moved(home, lists[r].nodes, r);
      TakenApart(r);
      OthersKept(r);
    }

    /** The critical section of resume_n. */
    method Pop(r: TaskId, n: nat) returns (done: bool)
      requires Valid() && r < |lists| - 1 && lists[r + 1].nodes == []
      modifies this`popped, this`home, lists[0], lists[0].nodes, lists[r + 1]
      ensures Valid() && home.Keys == old(home.Keys)
      ensures match Take(old(View()), r, n)
              case None => !done && View() == old(View()) && home == old(home)
              case Some(q) => done && View() == q
    {
      if lock.Some? {
        return false;
      }
      MoveFront(r + 1, n);
      TookView(r + 1);
      return true;
    }

    /** The critical section of resume_all. */
    method PopAll(r: TaskId) returns (done: bool)
      requires Valid() && r < |lists| - 1 && lists[r + 1].nodes == []
      modifies this`popped, this`home, lists[0], lists[r + 1]
      ensures Valid() && home.Keys == old(home.Keys)
      ensures match TakeAll(old(View()), r)
              case None => !done && View() == old(View()) && home == old(home)
              case Some(q) => done && View() == q
    {
      if lock.Some? {
        return false;
      }
      MoveAll(r + 1);
      TookView(r + 1);
      return true;
    }

    twostate lemma RestKept(r: nat)
      requires r < |lists| && old(Valid())
      requires home.Keys <= old(home.Keys) && forall n :: n in home.Keys ==> home[n] == old(home)[n]
      requires forall n :: n in old(home.Keys) && old(home[n]) != r ==> n in home.Keys && unchanged(n)
      requires forall i :: 0 <= i < |lists| && i != r ==> unchanged(lists[i])
      ensures forall i :: 0 <= i < |lists| && i != r ==> Holds(i)
    {
      forall i: nat | i < |lists| && i != r ensures Holds(i) {
        assert old(Holds(i));
        Kept(i);
      }
    }

    /** The first task of list r runs, and its node is gone. */
    method Drop(r: nat) returns (task: Option<TaskId>)
      requires Valid() && r < |lists|
      modifies this`gone, this`home, lists[r], lists[r].nodes
      ensures Valid() && forall n :: n in old(gone) ==> unchanged(n)
      ensures |old(lists[r].nodes)| == |old(lists[r].contents)|
      ensures forall i :: 0 <= i < |lists| && i != r ==> unchanged(lists[i])
      ensures old(lists[r].nodes) == [] ==>
                task == None && lists[r].contents == old(lists[r].contents) && gone == old(gone) && home == old(home)
      ensures old(lists[r].nodes) != [] ==>
                var node := old(lists[r].nodes)[0];
                && task == Some(old(lists[r].contents)[0]) && lists[r].contents == old(lists[r].contents)[1..]
                && gone == old(gone) + {node} && home == old(home) - {node}
    {
      assert Holds(r);
      task := WaitQueue.ResumeFront(lists[r]);
      if task.Some? {
        ghost var node := old(lists[r].nodes)[0];
        assert node in old(lists[r].nodes);
        gone, home := gone + {node}, home - {node};
      }
      RestKept(r);
    }

    /** One round of do_resume_all. */
    method ResumeNext(r: TaskId) returns (task: Option<TaskId>)
      requires Valid() && r < |lists| - 1
      modifies this`gone, this`home, lists[r + 1], lists[r + 1].nodes
      ensures Valid() && forall n :: n in old(gone) ==> unchanged(n)
      ensures |old(lists[r + 1].nodes)| == |old(lists[r + 1].contents)|
      ensures old(lists[r + 1].nodes) == [] ==>
                task == None && View() == old(View()) && gone == old(gone) && home == old(home)
      ensures old(lists[r + 1].nodes) != [] ==>
                var node := old(lists[r + 1].nodes)[0];
                && task == Some(old(lists[r + 1].contents)[0]) && View() == DropFront(old(View()), r)
                && gone == old(gone) + {node} && home == old(home) - {node}
    {
      task := Drop(r + 1);
      assert task.None? ==> View().local == old(View()).local;
      assert task.Some? ==> View().local == DropFront(old(View()), r).local;
    }

    /** No list has a node that is not at home, and empty lists have none. */
    lemma AllAtHome(i: nat)
      requires Valid() && i < |lists|
      ensures forall n :: n in lists[i].nodes ==> n in home.Keys
      ensures lists[i].contents == [] <==> lists[i].nodes == []
    {
      assert Holds(i);
    }

    method SetLock(from: Option<TaskId>, to: Option<TaskId>) returns (moved: bool)
      requires Valid()
      modifies this`lock
      ensures Valid() && (moved <==> old(lock) == from)
      ensures View() == if moved then old(View()).(owner := to) else old(View())
    {
      moved := lock == from;
      if moved {
        lock := to;
      }
      forall i: nat | i < |lists| ensures Holds(i) {
        Kept(i);
      }
    }

    /** A task pushes the node on its own stack. */
    method PushNew(t: TaskId) returns (moved: bool)
      requires Valid()
      modifies this`lock, this`pushed, this`home, lists[0], lists[0].nodes
      ensures Valid() && gone == old(gone) && forall n :: n in home.Keys ==> n in old(home.Keys) || fresh(n)
      ensures moved <==> old(lock) == Some(t)
      ensures if moved then Continue(View(), Parked) == WaitIf(old(View()), t, Pushing, true) else View() == old(View())
    {
      moved := lock == Some(t);
      if moved {
        var node := new Node(t);
        Push(t, node);
      }
    }

    method Idle(r: TaskId) returns (idle: bool)
      requires Valid()
      ensures idle <==> r < |lists| - 1 && lists[r + 1].contents == []
      ensures idle ==> lists[r + 1].nodes == []
    {
      idle := false;
      if r < |lists| - 1 {
        assert Holds(r + 1);
        idle := lists[r + 1].Empty();
        AllAtHome(r + 1);
      }
    }

    method Act(a: Action) returns (moved: bool)
      requires Valid()
      modifies this, lists, home.Keys
      ensures Valid()
      ensures match Does(old(View()), a)
              case None => !moved && View() == old(View())
              case Some(q) => moved && View() == q
      ensures forall n :: n in home.Keys ==> n in old(home.Keys) || fresh(n)
      ensures forall n :: n in old(gone) ==> n in gone && unchanged(n)
    {
      AllAtHome(0);
      match a {
        case Lock(t) => moved := SetLock(None, Some(t));
        case GoOn(t) => moved := SetLock(Some(t), None);
        case Sleep(t) => moved := PushNew(t);
        case PopSome(r, n) =>
          moved := Idle(r);
          if moved {
            moved := Pop(r, n);
          }
        case PopEvery(r) =>
          moved := Idle(r);
          if moved {
            moved := PopAll(r);
          }
        case Resume(r) =>
          moved := false;
          if r < |lists| - 1 {
            AllAtHome(r + 1);
            var task := ResumeNext(r);
            moved := task.Some?;
          }
      }
    }

    /** Any schedule of actions on the heap: the lists stay well formed and apart, no node that is
        gone is touched, and what the lists go through is a run of the protocol. */
    method Run(schedule: seq<Action>) returns (ghost run: seq<Waiters>)
      requires Valid() && Empty(View())
      modifies this, lists, home.Keys
      ensures Valid() && IsRun(Empty, Acts, run)
      ensures run[0] == old(View()) && run[|run| - 1] == View()
      ensures forall n :: n in old(gone) ==> n in gone && unchanged(n)
    {
      run := [View()];
      for i := 0 to |schedule|
        invariant Valid() && IsRun(Empty, Acts, run)
        invariant run[0] == old(View()) && run[|run| - 1] == View()
        invariant forall n :: n in home.Keys ==> n in old(home.Keys) || fresh(n)
        invariant forall n :: n in old(gone) ==> n in gone && unchanged(n)
      {
        ghost var before := View();
        var moved := Act(schedule[i]);
        if moved {
          assert Does(before, schedule[i]) == Some(View());
          ExtendRun(Empty, Acts, run, View());
          run := run + [View()];
        }
      }
    }
  }
}
