/** shared_mutex::scoped_lock: whatever is done with it, the calls it makes come in pairs, so
    that its users are users of the shared mutex as SharedMutex models them. */
module ScopedLock {
  import opened WaitProtocol
  import opened SharedMutex

  type MutexId = nat

  /** A call made on a mutex; `ok` is what a try returned. */
  datatype MutexCall =
    | Lock(m: MutexId) | LockShared(m: MutexId)
    | TryToLock(m: MutexId, ok: bool) | TryToLockShared(m: MutexId, ok: bool)
    | Unlock(m: MutexId) | UnlockShared(m: MutexId)

  /** `NotPermitted` is the system_error thrown on misuse. */
  datatype Result = Done(answer: bool) | NotPermitted

  datatype Holding = Holding(m: MutexId, write: bool)

  /** What the caller holds after these calls, or None if some call was wrong: a lock while
      holding one, or an unlock of something else than what is held. */
  function Held(calls: seq<MutexCall>): Option<Option<Holding>> {
    if calls == [] then Some(None)
    else
      var before := Held(calls[..|calls| - 1]);
      if before.None? then None else After(before.value, calls[|calls| - 1])
  }

  function After(held: Option<Holding>, call: MutexCall): Option<Option<Holding>> {
    match call
    case Lock(m) => if held.None? then Some(Some(Holding(m, true))) else None
    case LockShared(m) => if held.None? then Some(Some(Holding(m, false))) else None
    case TryToLock(m, ok) => if held.Some? then None else Some(if ok then Some(Holding(m, true)) else None)
    case TryToLockShared(m, ok) => if held.Some? then None else Some(if ok then Some(Holding(m, false)) else None)
    case Unlock(m) => if held == Some(Holding(m, true)) then Some(None) else None
    case UnlockShared(m) => if held == Some(Holding(m, false)) then Some(None) else None
  }

  class Scope {
    var m_mutex: Option<MutexId>
    var m_is_writer_lock: bool
    var calls: seq<MutexCall>

    ghost function Owned(): Option<Holding>
      reads this
    {
      if m_mutex.None? then None else Some(Holding(m_mutex.value, m_is_writer_lock))
    }

    /** The two fields tell what the calls made so far have acquired. */
    ghost predicate Valid()
      reads this
    {
      Held(calls) == Some(Owned())
    }

    constructor ()
      ensures Valid() && calls == [] && Owned() == None
    {
      m_mutex, m_is_writer_lock, calls := None, false, [];
    }

    method Make(call: MutexCall)
      requires Held(calls).Some?
      modifies `calls
      ensures calls == old(calls) + [call]
      ensures Held(calls) == After(old(Held(calls)).value, call)
    {
      ghost var before := calls;
      calls := calls + [call];
      assert calls[..|before|] == before;
    }

    method Acquire(m: MutexId, write: bool) returns (result: Result)
      requires Valid()
      modifies this
      ensures Valid()
      ensures old(Owned()) != None ==> result == NotPermitted && Owned() == old(Owned()) && calls == old(calls)
      ensures old(Owned()) == None ==>
                && result.Done? && Owned() == Some(Holding(m, write))
                && calls == old(calls) + [if write then Lock(m) else LockShared(m)]
    {
      if m_mutex.Some? {
        return NotPermitted;
      }
      m_mutex := Some(m);
      if write {
        Make(Lock(m));
      } else {
        Make(LockShared(m));
      }
      m_is_writer_lock := write;
      return Done(true);
    }

    /** `ok` is what the mutex answers. */
    method TryAcquire(m: MutexId, write: bool, ok: bool) returns (result: Result)
      requires Valid()
      modifies this
      ensures Valid()
      ensures old(Owned()) != None ==> result == NotPermitted && Owned() == old(Owned()) && calls == old(calls)
      ensures old(Owned()) == None ==>
                && result == Done(ok) && Owned() == (if ok then Some(Holding(m, write)) else None)
                && calls == old(calls) + [if write then TryToLock(m, ok) else TryToLockShared(m, ok)]
    {
      if m_mutex.Some? {
        return NotPermitted;
      }
      if write {
        Make(TryToLock(m, ok));
      } else {
        Make(TryToLockShared(m, ok));
      }
      if ok {
        m_mutex := Some(m);
        m_is_writer_lock := write;
      }
      return Done(ok);
    }

    /** Also the destructor. */
    method Release()
      requires Valid()
      modifies this
      ensures Valid() && Owned() == None
      ensures old(Owned()) == None ==> calls == old(calls)
      ensures old(Owned()).Some? ==>
                var held := old(Owned()).value;
                calls == old(calls) + [if held.write then Unlock(held.m) else UnlockShared(held.m)]
    {
      if m_mutex.None? {
        return;
      }
      if m_is_writer_lock {
        Make(Unlock(m_mutex.value));
      } else {
        Make(UnlockShared(m_mutex.value));
      }
      m_is_writer_lock := false;
      m_mutex := None;
    }

    /** Answers whether the lock was kept; otherwise the shared lock is given up before the
        exclusive one is taken. */
    method UpgradeToWriter() returns (result: Result)
      requires Valid()
      modifies this
      ensures Valid()
      ensures old(Owned()) == None ==> result == NotPermitted && Owned() == None && calls == old(calls)
      ensures old(Owned()).Some? ==>
                var held := old(Owned()).value;
                && Owned() == Some(Holding(held.m, true)) && result == Done(held.write)
                && calls == old(calls) + if held.write then [] else [UnlockShared(held.m), Lock(held.m)]
    {
      if m_mutex.None? {
        return NotPermitted;
      }
      if m_is_writer_lock {
        return Done(true);
      }
      Make(UnlockShared(m_mutex.value));
      Make(Lock(m_mutex.value));
      m_is_writer_lock := true;
      return Done(false);
    }

    method DowngradeToReader() returns (result: Result)
      requires Valid()
      modifies this
      ensures Valid()
      ensures old(Owned()) == None ==> result == NotPermitted && Owned() == None && calls == old(calls)
      ensures old(Owned()).Some? ==>
                var held := old(Owned()).value;
                && Owned() == Some(Holding(held.m, false)) && result == Done(!held.write)
                && calls == old(calls) + if held.write then [Unlock(held.m), LockShared(held.m)] else []
    {
      if m_mutex.None? {
        return NotPermitted;
      }
      if !m_is_writer_lock {
        return Done(true);
      }
      Make(Unlock(m_mutex.value));
      Make(LockShared(m_mutex.value));
      m_is_writer_lock := false;
      return Done(false);
    }
  }

  // The calls as jobs of the protocol

  /** A job that has been carried out on mutex m; a try may have failed. */
  datatype Round = Round(m: MutexId, job: Job, ok: bool)

  /** The calls it consists of. */
  function CallsOf(round: Round): seq<MutexCall> {
    match round.job
    case Write => [Lock(round.m), Unlock(round.m)]
    case Read => [LockShared(round.m), UnlockShared(round.m)]
    case TryWrite => [TryToLock(round.m, round.ok)] + if round.ok then [Unlock(round.m)] else []
    case TryRead => [TryToLockShared(round.m, round.ok)] + if round.ok then [UnlockShared(round.m)] else []
  }

  function AllCalls(rounds: seq<Round>): seq<MutexCall> {
    if rounds == [] then [] else AllCalls(rounds[..|rounds| - 1]) + CallsOf(rounds[|rounds| - 1])
  }

  lemma AllCallsAppend(rounds: seq<Round>, round: Round)
    ensures AllCalls(rounds + [round]) == AllCalls(rounds) + CallsOf(round)
  {
    assert (rounds + [round])[..|rounds|] == rounds;
  }

  function JobOf(first: MutexCall): Job {
    match first
    case Lock(_) => Write
    case LockShared(_) => Read
    case TryToLock(_, _) => TryWrite
    case _ => TryRead
  }

  /** What is held was acquired by the last call. */
  lemma OpenedLast(calls: seq<MutexCall>)
    requires Held(calls).Some? && Held(calls).value.Some?
    ensures calls != [] && Held(calls[..|calls| - 1]) == Some(None)
    ensures After(None, calls[|calls| - 1]) == Held(calls)
  {
  }

  /** The call that leaves nothing held is a failed try, or completes a job with the one before. */
  lemma LastRound(calls: seq<MutexCall>) returns (before: seq<MutexCall>, round: Round)
    requires calls != [] && Held(calls) == Some(None)
    ensures Held(before) == Some(None) && calls == before + CallsOf(round) && |before| < |calls|
  {
    var n := |calls| - 1;
    var last := calls[n];
    before := calls[..n];
    if last.Unlock? || last.UnlockShared? {
      OpenedLast(before);
      var first := before[n - 1];
      before, round := before[..n - 1], Round(last.m, JobOf(first), true);
      assert CallsOf(round) == [first, last];
    } else {
      round := Round(last.m, JobOf(last), false);
      assert CallsOf(round) == [last];
    }
  }

  /** A scope that holds nothing at the end has done nothing but whole jobs, one after another:
      with its upgrades and downgrades it is a task of the protocol like any other. */
  lemma {:induction false} CallsAreJobs(calls: seq<MutexCall>) returns (rounds: seq<Round>)
    requires Held(calls) == Some(None)
    ensures AllCalls(rounds) == calls
    decreases |calls|
  {
    rounds := [];
    if calls != [] {
      var before, round := LastRound(calls);
      rounds := CallsAreJobs(before);
      AllCallsAppend(rounds, round);
      rounds := rounds + [round];
    }
  }
}
