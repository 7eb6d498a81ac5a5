/** The wait queue as a protocol: `wait_if` one atomic action at a time, and the critical
    sections of the `resume_*` calls, over the tasks 0 .. N-1.

    The invariant is one conservation law: the tasks parked inside `wait_if` are exactly the
    tasks held by the main list and by the resumers' local lists, each of them once. */
module WaitProtocol {
  import opened TaskSums

  datatype Option<+T> = None | Some(value: T)

  type TaskId = nat

  /** Where a task stands inside `wait_if`. */
  datatype Phase =
    | FastPath    // about to evaluate the predicate for the first time
    | Locking     // about to take the spin lock, inside the suspend callback
    | Recheck     // holds the lock, about to evaluate the predicate again
    | Pushing     // holds the lock, the re-check told it to wait
    | Parked      // node in a list, the task runs again only when somebody resumes it
    | SelfResume  // the re-check told it to go on, about to resume itself

  /** `main` is the list guarded by the spin lock `owner`; `local[r]` is the list a resumer
      `r` has popped and not yet worked off.  `pushed` and `popped` record the history. */
  datatype Waiters = Waiters(
    main: seq<TaskId>, owner: Option<TaskId>, local: seq<seq<TaskId>>,
    pushed: seq<TaskId>, popped: seq<TaskId>)

  function NoWaiters(n: nat): Waiters {
    Waiters([], None, seq(n, _ => []), [], [])
  }

  datatype Progress = Blocked | Continue(q: Waiters, phase: Phase) | Return(q: Waiters)

  /** One atomic action of `wait_if` by task `t`; `pred` is what the predicate answers now. */
  function WaitIf(q: Waiters, t: TaskId, phase: Phase, pred: bool): Progress {
    match phase
    case FastPath => if pred then Continue(q, Locking) else Return(q)
    case Locking => if q.owner.None? then Continue(q.(owner := Some(t)), Recheck) else Blocked
    case Recheck => if pred then Continue(q, Pushing) else Continue(q.(owner := None), SelfResume)
    case Pushing => Continue(q.(owner := None, main := q.main + [t], pushed := q.pushed + [t]), Parked)
    case Parked => Blocked
    case SelfResume => Return(q)
  }

  function Min(a: nat, b: nat): nat {
    if a < b then a else b
  }

  /** What `resume_n(n)` takes from a list, and what it leaves. */
  function Front(main: seq<TaskId>, n: nat): seq<TaskId> {
    main[..Min(n, |main|)]
  }

  function Back(main: seq<TaskId>, n: nat): seq<TaskId> {
    main[Min(n, |main|)..]
  }

  /** The critical section of a resumer: up to `n` tasks move from the front of the main list
      to the resumer's local list.  It waits while another task holds the lock. */
  function Take(q: Waiters, r: TaskId, n: nat): Option<Waiters>
    requires r < |q.local|
  {
    if q.owner.Some? then None
    else
      var front := Front(q.main, n);
      Some(q.(main := Back(q.main, n), local := q.local[r := front], popped := q.popped + front))
  }

  function TakeAll(q: Waiters, r: TaskId): Option<Waiters>
    requires r < |q.local|
  {
    Take(q, r, |q.main|)
  }

  /** The resumer drops the front of its local list, having resumed that task. */
  function DropFront(q: Waiters, r: TaskId): Waiters
    requires r < |q.local| && q.local[r] != []
  {
    q.(local := q.local[r := q.local[r][1..]])
  }

  // The conservation law

  type Phases = seq<Option<Phase>>

  predicate HoldsLock(p: Option<Phase>) {
    p == Some(Recheck) || p == Some(Pushing)
  }

  function IsParked(p: Option<Phase>): int {
    if p == Some(Parked) then 1 else 0
  }

  function Length(l: seq<TaskId>): int {
    |l|
  }

  function Copies(t: TaskId): seq<TaskId> -> int {
    (l: seq<TaskId>) => multiset(l)[t]
  }

  /** How often task `t` occurs in the main list and all local lists together. */
  function Occurrences(q: Waiters, t: TaskId): int {
    multiset(q.main)[t] + Sum(q.local, Copies(t))
  }

  predicate ParkedAt(ph: Phases, t: TaskId) {
    t < |ph| && ph[t] == Some(Parked)
  }

  ghost predicate WaitInv(q: Waiters, ph: Phases) {
    && |q.local| == |ph|
    && (forall t :: 0 <= t < |ph| ==> (HoldsLock(ph[t]) <==> q.owner == Some(t)))
    && (q.owner.Some? ==> q.owner.value < |ph|)
    && (forall t: TaskId :: Occurrences(q, t) == if ParkedAt(ph, t) then 1 else 0)
    && Sum(ph, IsParked) == |q.main| + Sum(q.local, Length)
    && q.pushed == q.popped + q.main
  }

  lemma CopiesAppend(a: seq<TaskId>, b: seq<TaskId>, t: TaskId)
    ensures Copies(t)(a + b) == Copies(t)(a) + Copies(t)(b)
    ensures multiset(a + b)[t] == multiset(a)[t] + multiset(b)[t]
  {
  }

  lemma CopiesInLocal(q: Waiters, r: nat, t: TaskId)
    requires r < |q.local|
    ensures multiset(q.local[r])[t] <= Occurrences(q, t)
    ensures t in q.local[r] ==> 0 < Copies(t)(q.local[r]) <= Sum(q.local, Copies(t))
  {
    SumAtLeast(q.local, r, Copies(t));
    assert Copies(t)(q.local[r]) == multiset(q.local[r])[t];
    assert t in q.local[r] ==> t in multiset(q.local[r]);
  }

  /** A task in a list is parked there. */
  lemma ListedIsParked(q: Waiters, ph: Phases, t: TaskId)
    requires WaitInv(q, ph)
    requires t in q.main || exists r :: 0 <= r < |q.local| && t in q.local[r]
    ensures ParkedAt(ph, t)
  {
    SumNonNegative(q.local, Copies(t));
    if t in q.main {
      assert t in multiset(q.main);
    } else {
      var r :| 0 <= r < |q.local| && t in q.local[r];
      CopiesInLocal(q, r, t);
    }
    assert Occurrences(q, t) > 0;
  }

  /** A parked task is in the main list or in somebody's local list. */
  lemma ParkedIsListed(q: Waiters, ph: Phases, t: TaskId)
    requires WaitInv(q, ph) && ParkedAt(ph, t)
    ensures t in q.main || exists r :: 0 <= r < |q.local| && t in q.local[r]
  {
    assert Occurrences(q, t) == 1;
    if t !in q.main {
      assert multiset(q.main)[t] == 0;
      var r := SumWitness(q.local, Copies(t));
      assert t in multiset(q.local[r]);
      assert t in q.local[r];
    }
  }

  /** Exactly once.  A parked task sits in one place, in the main list or in one local list,
      and there only once; a task that is not parked, because it never waited or was resumed,
      sits in no list.  So nobody can resume a task twice; WaitLists carries this to the nodes. */
  lemma ExactlyOneList(q: Waiters, ph: Phases, t: TaskId)
    requires WaitInv(q, ph)
    ensures ParkedAt(ph, t) <==> (t in q.main || exists r :: 0 <= r < |q.local| && t in q.local[r])
    ensures multiset(q.main)[t] <= 1
    ensures forall r :: 0 <= r < |q.local| ==> multiset(q.local[r])[t] <= 1
    ensures t in q.main ==> forall r :: 0 <= r < |q.local| ==> t !in q.local[r]
    ensures forall r, r' :: 0 <= r < r' < |q.local| ==> !(t in q.local[r] && t in q.local[r'])
  {
    assert Occurrences(q, t) <= 1;
    SumNonNegative(q.local, Copies(t));
    if ParkedAt(ph, t) {
      ParkedIsListed(q, ph, t);
    } else if t in q.main || exists r :: 0 <= r < |q.local| && t in q.local[r] {
      ListedIsParked(q, ph, t);
    }
    assert t in q.main ==> t in multiset(q.main);
    forall r | 0 <= r < |q.local|
      ensures multiset(q.local[r])[t] <= 1 && (t in q.main ==> t !in q.local[r])
    {
      CopiesInLocal(q, r, t);
    }
    forall r, r' | 0 <= r < r' < |q.local|
      ensures !(t in q.local[r] && t in q.local[r'])
    {
      SumAtLeastTwo(q.local, r, r', Copies(t));
      CopiesInLocal(q, r, t);
      CopiesInLocal(q, r', t);
    }
  }

  // Every action keeps the law

  lemma WaitIfKeepsInv(q: Waiters, ph: Phases, t: TaskId, pred: bool)
    requires WaitInv(q, ph) && t < |ph| && ph[t].Some?
    ensures match WaitIf(q, t, ph[t].value, pred)
            case Blocked => true
            case Continue(q', phase) => WaitInv(q', ph[t := Some(phase)])
            case Return(q') => WaitInv(q', ph[t := None])
  {
    match WaitIf(q, t, ph[t].value, pred)
    case Blocked =>
    case Continue(q', phase) =>
      PhaseChange(q, q', ph, t, Some(phase));
    case Return(q') =>
      PhaseChange(q, q', ph, t, None);
  }

  /** The shared part of `WaitIfKeepsInv`: task `t` changes phase, and is pushed if it parks. */
  lemma PhaseChange(q: Waiters, q': Waiters, ph: Phases, t: TaskId, p: Option<Phase>)
    requires WaitInv(q, ph) && t < |ph| && ph[t] != Some(Parked)
    requires q'.local == q.local && q'.popped == q.popped
    requires if p == Some(Parked) then q'.main == q.main + [t] && q'.pushed == q.pushed + [t]
             else q'.main == q.main && q'.pushed == q.pushed
    requires HoldsLock(p) ==> q'.owner == Some(t) && q.owner in {None, Some(t)}
    requires !HoldsLock(p) ==> q'.owner == if HoldsLock(ph[t]) then None else q.owner
    ensures WaitInv(q', ph[t := p])
  {
    var ph' := ph[t := p];
    SumUpdate(ph, t, p, IsParked);
    forall u: TaskId
      ensures Occurrences(q', u) == if ParkedAt(ph', u) then 1 else 0
    {
      assert Occurrences(q, u) == if ParkedAt(ph, u) then 1 else 0;
      PushOccurrences(q, q', t, u, p == Some(Parked));
    }
  }

  lemma PushOccurrences(q: Waiters, q': Waiters, t: TaskId, u: TaskId, push: bool)
    requires q'.local == q.local && q'.main == if push then q.main + [t] else q.main
    ensures Occurrences(q', u) == Occurrences(q, u) + if push && u == t then 1 else 0
  {
    CopiesAppend(q.main, [t], u);
  }

  lemma TakeKeepsInv(q: Waiters, ph: Phases, r: TaskId, n: nat)
    requires WaitInv(q, ph) && r < |ph| && q.local[r] == []
    ensures Take(q, r, n).Some? ==> WaitInv(Take(q, r, n).value, ph)
  {
    if Take(q, r, n).Some? {
      var q' := Take(q, r, n).value;
      var k := Min(n, |q.main|);
      var front, rest := q.main[..k], q.main[k..];
      assert q.main == front + rest;
      SumUpdate(q.local, r, front, Length);
      forall t: TaskId
        ensures Occurrences(q', t) == if ParkedAt(ph, t) then 1 else 0
      {
        assert Occurrences(q, t) == if ParkedAt(ph, t) then 1 else 0;
        SumUpdate(q.local, r, front, Copies(t));
        CopiesAppend(front, rest, t);
      }
      assert q.popped + q.main == q.popped + front + rest;
    }
  }

  /** Resuming the front of a local list: that task is parked, and it runs again. */
  lemma WakeKeepsInv(q: Waiters, ph: Phases, r: TaskId)
    requires WaitInv(q, ph) && r < |ph| && q.local[r] != []
    ensures ParkedAt(ph, q.local[r][0])
    ensures WaitInv(DropFront(q, r), ph[q.local[r][0] := None])
  {
    var w, l := q.local[r][0], q.local[r][1..];
    assert q.local[r] == [w] + l;
    assert w in q.local[r];
    ListedIsParked(q, ph, w);
    var q', ph' := DropFront(q, r), ph[w := None];
    SumUpdate(ph, w, None, IsParked);
    SumUpdate(q.local, r, l, Length);
    forall t: TaskId
      ensures Occurrences(q', t) == if ParkedAt(ph', t) then 1 else 0
    {
      assert Occurrences(q, t) == if ParkedAt(ph, t) then 1 else 0;
      SumUpdate(q.local, r, l, Copies(t));
      CopiesAppend([w], l, t);
    }
  }

  /** A task that starts waiting gains a phase that is neither parked nor locked. */
  lemma EnterKeepsInv(q: Waiters, ph: Phases, t: TaskId)
    requires WaitInv(q, ph) && t < |ph| && ph[t] == None
    ensures WaitInv(q, ph[t := Some(FastPath)])
  {
    PhaseChange(q, q, ph, t, Some(FastPath));
  }

  lemma NoWaitersInv(ph: Phases)
    requires forall t :: 0 <= t < |ph| ==> ph[t] == None
    ensures WaitInv(NoWaiters(|ph|), ph)
  {
    var q := NoWaiters(|ph|);
    SumZero(ph, IsParked);
    SumZero(q.local, Length);
    forall t: TaskId ensures Occurrences(q, t) == 0 {
      SumZero(q.local, Copies(t));
    }
  }

  /** While the lock is free nobody is at its re-check or its push. */
  lemma NobodyHoldsFreeLock(q: Waiters, ph: Phases, t: TaskId)
    requires WaitInv(q, ph) && q.owner == None && t < |ph|
    ensures !HoldsLock(ph[t])
  {
  }

  lemma AtMostAllQueued(q: Waiters, ph: Phases)
    requires WaitInv(q, ph)
    ensures |q.main| <= |ph|
  {
    SumAtMost(ph, 1, IsParked);
    SumNonNegative(q.local, Length);
  }

  /** With no local lists left, the main list holds exactly the parked tasks. */
  lemma AllInMain(q: Waiters, ph: Phases)
    requires WaitInv(q, ph)
    requires forall r :: 0 <= r < |q.local| ==> q.local[r] == []
    ensures |q.main| == Sum(ph, IsParked)
    ensures forall t: TaskId :: t in q.main <==> ParkedAt(ph, t)
  {
    SumZero(q.local, Length);
    forall t: TaskId ensures t in q.main <==> ParkedAt(ph, t) {
      if t in q.main {
        ListedIsParked(q, ph, t);
      }
      if ParkedAt(ph, t) {
        ParkedIsListed(q, ph, t);
      }
    }
  }

  /** Actions of `wait_if` and the loop around it that are left before the caller gets through
      (`open`) or goes to sleep (not `open`), while the predicate stays as it is. */
  function PhaseRank(phase: Phase, open: bool): int {
    match phase
    case FastPath => if open then 3 else 4
    case Locking => if open then 5 else 3
    case Recheck => if open then 4 else 2
    case SelfResume => if open then 3 else 6
    case Pushing => 1
    case Parked => 0
  }

  /** Rank of the loop's own load. */
  function LoadRank(open: bool): int {
    if open then 2 else 5
  }

  /** Steps of a wait_if that is entered once and left for good, plus one to return. */
  function WaitWork(phase: Phase): int {
    match phase
    case FastPath => 7
    case Locking => 6
    case Recheck => 5
    case SelfResume => 2
    case Pushing => 4
    case Parked => 3
  }
}
