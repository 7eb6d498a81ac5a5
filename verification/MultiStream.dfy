/** Waiting for n CUDA streams: the registration loop and the callbacks it arms count down
    together, and whoever takes the count to zero resumes the suspended task. */
module MultiStream {
  import opened TaskSums
  import opened Runs
  import opened WaitProtocol

  /** What registering the callback of one stream comes to: it fails with an error code, or the
      callback runs once, at some time from the registration on, with a status. */
  datatype Registration = Fails(error: int) | Succeeds(status: int)

  function Code(r: Registration): int {
    match r
    case Fails(e) => e
    case Succeeds(e) => e
  }

  /** How far one item has come. */
  datatype Stage =
    | Unset      // its slot in `items` is still empty
    | Assigned   // about to be registered
    | Failed     // registration failed, the loop is to notify it
    | Armed      // registered, the callback is to notify it
    | Written    // notify has stored the code
    | Owing      // notify has taken the count to zero, resume is next
    | Notified

  /** `next` is the loop's index; `resumes` counts the calls of resume. */
  datatype State = State(
    plan: seq<Registration>, next: nat, stages: seq<Stage>, errs: seq<Option<int>>, pending: int, resumes: nat)

  datatype Actor = Loop | Callback(k: nat)

  predicate Sized(s: State) {
    |s.stages| == |s.errs| == |s.plan| && s.next <= |s.plan|
  }

  function Stand(s: State, k: nat, stage: Stage): State
    requires k < |s.stages|
  {
    s.(stages := s.stages[k := stage])
  }

  /** One action of `notify` on item k. */
  function Notify(s: State, k: nat): Option<State>
    requires Sized(s) && k < |s.plan|
  {
    match s.stages[k]
    case Failed => Some(Stand(s, k, Written).(errs := s.errs[k := Some(Code(s.plan[k]))]))
    case Armed => Some(Stand(s, k, Written).(errs := s.errs[k := Some(Code(s.plan[k]))]))
    case Written => Some(Stand(s, k, if s.pending == 1 then Owing else Notified).(pending := s.pending - 1))
    case Owing => Some(Stand(s, k, Notified).(resumes := s.resumes + 1))
    case _ => None
  }

  function LoopNext(s: State): Option<State>
    requires Sized(s)
  {
    var k := s.next;
    if k == |s.plan| then None
    else
      match s.stages[k]
      case Unset => Some(Stand(s, k, Assigned))
      case Assigned => Some(Stand(s, k, if s.plan[k].Fails? then Failed else Armed))
      case stage =>
        if s.plan[k].Succeeds? || stage == Notified then Some(s.(next := k + 1))
        else Notify(s, k)
  }

  function Next(s: State, a: Actor): Option<State>
    requires Sized(s)
  {
    match a
    case Loop => LoopNext(s)
    case Callback(k) => if k < |s.plan| && s.plan[k].Succeeds? then Notify(s, k) else None
  }

  // The invariant

  function Uncounted(stage: Stage): int {
    if stage in {Owing, Notified} then 0 else 1
  }

  function Owes(stage: Stage): int {
    if stage == Owing then 1 else 0
  }

  predicate IsStored(stage: Stage) {
    stage in {Written, Owing, Notified}
  }

  predicate ItemOk(s: State, k: nat)
    requires Sized(s) && k < |s.plan|
  {
    && s.errs[k] == (if IsStored(s.stages[k]) then Some(Code(s.plan[k])) else None)
    && (s.next < k ==> s.stages[k] == Unset)
    && (k < s.next ==> s.stages[k] in {Armed, Written, Owing, Notified})
    && (k < s.next && s.plan[k].Fails? ==> s.stages[k] == Notified)
    && (s.stages[k] == Failed ==> s.plan[k].Fails?)
    && (s.stages[k] == Armed ==> s.plan[k].Succeeds?)
  }

  predicate Inv(s: State) {
    && Sized(s)
    && s.pending == Sum(s.stages, Uncounted)
    && s.resumes + Sum(s.stages, Owes) == (if s.pending == 0 && s.plan != [] then 1 else 0)
    && forall k :: 0 <= k < |s.plan| ==> ItemOk(s, k)
  }

  predicate Init(s: State) {
    && Sized(s) && s.next == 0 && s.pending == |s.plan| && s.resumes == 0
    && forall k :: 0 <= k < |s.plan| ==> s.stages[k] == Unset && s.errs[k] == None
  }

  lemma {:induction false} AllUncounted(stages: seq<Stage>)
    requires forall i :: 0 <= i < |stages| ==> stages[i] == Unset
    ensures Sum(stages, Uncounted) == |stages| && Sum(stages, Owes) == 0
  {
    if stages != [] {
      AllUncounted(stages[..|stages| - 1]);
    }
  }

  lemma InitHasInv(s: State)
    requires Init(s)
    ensures Inv(s)
  {
    AllUncounted(s.stages);
  }

  /** A step moves the loop on, or one item. */
  lemma StepShape(s: State, a: Actor, s': State) returns (k: nat)
    requires Sized(s) && Next(s, a) == Some(s')
    ensures Sized(s') && s'.plan == s.plan && k < |s.plan|
    ensures s'.stages == s.stages[k := s'.stages[k]] && s'.errs == s.errs[k := s'.errs[k]]
    ensures k == if a.Loop? then s.next else a.k
    ensures s'.pending - s.pending == Uncounted(s'.stages[k]) - Uncounted(s.stages[k])
    ensures s'.resumes + Owes(s'.stages[k]) - s.resumes - Owes(s.stages[k])
            == if s'.pending == 0 < s.pending then 1 else 0
  {
    k := if a.Loop? then s.next else a.k;
  }

  lemma NextItemsOk(s: State, a: Actor, s': State)
    requires Inv(s) && Next(s, a) == Some(s') && Sized(s')
    ensures forall k :: 0 <= k < |s'.plan| ==> ItemOk(s', k)
  {
    var j := StepShape(s, a, s');
    forall k | 0 <= k < |s'.plan| ensures ItemOk(s', k) {
      assert ItemOk(s, k);
    }
  }

  lemma NextKeepsInv(s: State, a: Actor, s': State)
    requires Inv(s) && Next(s, a) == Some(s')
    ensures Inv(s')
  {
    var k := StepShape(s, a, s');
    NextItemsOk(s, a, s');
    SumUpdate(s.stages, k, s'.stages[k], Uncounted);
    SumUpdate(s.stages, k, s'.stages[k], Owes);
    SumAtLeast(s.stages, k, Uncounted);
    SumAtLeast(s.stages, k, Owes);
  }

  // The theorems

  ghost predicate Steps(s: State, s': State) {
    Sized(s) && exists a :: Next(s, a) == Some(s')
  }

  lemma StepsPreserveInv()
    ensures Preserved(Steps, Inv)
  {
    forall s, s' | Inv(s) && Steps(s, s') ensures Inv(s') {
      var a :| Next(s, a) == Some(s');
      NextKeepsInv(s, a, s');
    }
  }

  lemma RunHasInv(run: seq<State>, i: nat)
    requires IsRun(Init, Steps, run) && i < |run|
    ensures Inv(run[i])
  {
    InitHasInv(run[0]);
    StepsPreserveInv();
    InvariantHolds(Init, Steps, Inv, run);
  }

  /** The slot of a stream holds the error of its registration or the status of its callback. */
  predicate Reports(slot: Option<int>, r: Registration) {
    && (r.Fails? ==> slot == Some(r.error))
    && (r.Succeeds? ==> slot == Some(r.status))
  }

  predicate AllStored(s: State) {
    Sized(s) && forall k :: 0 <= k < |s.plan| ==> Reports(s.errs[k], s.plan[k])
  }

  lemma CountedIsStored(s: State)
    requires Inv(s) && s.pending == 0
    ensures AllStored(s)
  {
    forall k | 0 <= k < |s.plan| ensures s.stages[k] in {Owing, Notified} && s.errs[k] == Some(Code(s.plan[k])) {
      SumAtLeast(s.stages, k, Uncounted);
      assert ItemOk(s, k);
    }
  }

  /** resume is called at most once, only when every error slot has its code, and after it no
      step touches a slot or the count again. */
  lemma ResumedAfterAll(run: seq<State>, i: nat, j: nat)
    requires IsRun(Init, Steps, run) && i <= j < |run|
    ensures run[i].resumes <= 1
    ensures run[i].resumes == 1 ==>
              && AllStored(run[i])
              && run[j].stages == run[i].stages && run[j].errs == run[i].errs
              && run[j].pending == run[i].pending == 0 && run[j].resumes == 1
    decreases j
  {
    RunHasInv(run, i);
    SumNonNegative(run[i].stages, Owes);
    if run[i].resumes == 1 {
      CountedIsStored(run[i]);
      if i < j {
        ResumedAfterAll(run, i, j - 1);
        RunHasInv(run, j - 1);
        OnlyLoopLeft(run[j - 1], run[j]);
      }
    }
  }

  lemma OnlyLoopLeft(s: State, s': State)
    requires Inv(s) && Steps(s, s') && s.resumes == 1
    ensures s' == s.(next := s'.next)
  {
    var a :| Next(s, a) == Some(s');
    var k := StepShape(s, a, s');
    SumNonNegative(s.stages, Owes);
    SumAtLeast(s.stages, k, Uncounted);
    SumAtLeast(s.stages, k, Owes);
  }

  ghost predicate Stuck(s: State) {
    Sized(s) && forall a :: Next(s, a) == None
  }

  /** When nothing is left to do the loop is over and every item notified, the task has been
      resumed exactly once (unless there was nothing to wait for), and slot k has the code of
      stream k. */
  lemma StuckExactly(s: State)
    requires Inv(s)
    ensures Stuck(s) <==> s.next == |s.plan| && forall k :: 0 <= k < |s.plan| ==> s.stages[k] == Notified
    ensures Stuck(s) ==> AllStored(s) && s.pending == 0 && s.resumes == if s.plan == [] then 0 else 1
  {
    if Stuck(s) {
      if s.next < |s.plan| {
        LoopGoesOn(s);
      }
      forall k: nat | k < |s.plan| ensures s.stages[k] == Notified {
        assert ItemOk(s, k);
        assert Next(s, Callback(k)) == None;
      }
      SumZero(s.stages, Uncounted);
      SumZero(s.stages, Owes);
      CountedIsStored(s);
    }
  }

  /** The loop never waits for anybody. */
  lemma LoopGoesOn(s: State)
    requires Inv(s) && s.next < |s.plan|
    ensures Next(s, Loop) != None
  {
    assert ItemOk(s, s.next);
  }

  function StageWork(stage: Stage): int {
    match stage
    case Unset => 5
    case Assigned => 4
    case Failed => 3
    case Armed => 3
    case Written => 2
    case Owing => 1
    case Notified => 0
  }

  function Measure(s: State): int {
    |s.plan| - s.next + Sum(s.stages, StageWork)
  }

  lemma StepsLowerMeasure()
    ensures Decreasing(Steps, Inv, Measure)
  {
    forall s, s' | Inv(s) && Steps(s, s') ensures Measure(s') < Measure(s) {
      var a :| Next(s, a) == Some(s');
      var k := StepShape(s, a, s');
      SumUpdate(s.stages, k, s'.stages[k], StageWork);
    }
  }

  /** Every run ends, n streams taking at most 6n steps. */
  lemma RunsAreFinite(run: seq<State>)
    requires IsRun(Init, Steps, run)
    ensures |run| - 1 <= 6 * |run[0].plan|
  {
    InitHasInv(run[0]);
    StepsPreserveInv();
    StepsLowerMeasure();
    RunIsBounded(Init, Steps, Inv, Measure, run);
    RunHasInv(run, |run| - 1);
    SumNonNegative(run[|run| - 1].stages, StageWork);
    SumAtMost(run[0].stages, 5, StageWork);
  }
}
