/** packaged_task: who owns a shared state, and what it ends up holding, over every sequential
    history of construction, invocation, reset, moves, swap and destruction. */
module PackagedTask {
  import opened Runs
  import opened WaitProtocol

  /** What the callable did when it was called; `CopyThrows` is a result whose construction in
      the shared state throws. */
  datatype CallResult = Returns(value: int) | Throws(error: int) | CopyThrows(error: int)

  datatype Outcome = Value(value: int) | Exception(error: int) | BrokenPromise

  datatype FutureError = NoState | AlreadySatisfied

  type Callable = nat
  type StateId = nat
  type TaskName = nat

  /** What is promised of such a call: the state holds the value that the callable returned, or the
      exception that it, or storing the value, threw. */
  predicate IsOutcomeOf(outcome: Option<Outcome>, result: CallResult) {
    && (result.Returns? ==> outcome == Some(Value(result.value)))
    && (result.Throws? ==> outcome == Some(Exception(result.error)))
    && (result.CopyThrows? ==> outcome == Some(Exception(result.error)))
  }

  /** What set_value or set_exception stores for it. */
  function Stored(result: CallResult): Outcome {
    match result
    case Returns(v) => Value(v)
    case Throws(e) => Exception(e)
    case CopyThrows(e) => Exception(e)
  }

  /** The first outcome stays. */
  function Settle(outcome: Option<Outcome>, next: Outcome): Option<Outcome> {
    if outcome.None? then Some(next) else outcome
  }

  /** The future_error thrown by set_value, caught and passed on to set_exception. */
  const FUTURE_ERROR := Exception(0)

  // The two classes, in place

  class SharedState {
    var outcome: Option<Outcome>

    constructor ()
      ensures outcome == None
    {
      outcome := None;
    }

    method Set(next: Outcome) returns (error: Option<FutureError>)
      modifies this
      ensures outcome == Settle(old(outcome), next)
      ensures error == if old(outcome) == None then None else Some(AlreadySatisfied)
    {
      if outcome.Some? {
        return Some(AlreadySatisfied);
      }
      outcome := Some(next);
      return None;
    }

    method BreakPromise()
      modifies this
      ensures outcome == Settle(old(outcome), BrokenPromise)
    {
      if outcome.None? {
        outcome := Some(BrokenPromise);
      }
    }
  }

  class Handle {
    var callable: Option<Callable>
    var state: SharedState?

    constructor Empty()
      ensures callable == None && state == null
    {
      callable, state := None, null;
    }

    constructor (f: Callable)
      ensures callable == Some(f) && state != null && fresh(state) && state.outcome == None
    {
      callable := Some(f);
      state := new SharedState();
    }

    constructor Move(other: Handle)
      modifies other
      ensures callable == old(other.callable) && state == old(other.state)
      ensures other.callable == None && other.state == null
    {
      callable, state := other.callable, other.state;
      new;
      other.callable, other.state := None, null;
    }

    /** The old state, if any, ends with an outcome; self-assignment changes nothing. */
    method MoveAssign(other: Handle)
      modifies this, other, this.state
      ensures this == other ==>
                callable == old(callable) && state == old(state) && (state != null ==> unchanged(state))
      ensures this != other ==>
                && callable == old(other.callable) && state == old(other.state)
                && other.callable == None && other.state == null
                && (old(state) != null ==> old(state).outcome == Settle(old(state.outcome), BrokenPromise))
    {
      if this != other {
        if state != null {
          state.BreakPromise();
        }
        state := null;
        callable, state := other.callable, other.state;
        other.callable, other.state := None, null;
      }
    }

    method Swap(other: Handle)
      modifies this, other
      ensures callable == old(other.callable) && state == old(other.state)
      ensures other.callable == old(callable) && other.state == old(state)
    {
      callable, other.callable := other.callable, callable;
      state, other.state := other.state, state;
    }

    /** operator(): the callable runs first, whatever the state already holds.  A value that
        finds the state satisfied throws inside the try block, so that set_exception is tried
        and throws too. */
    method Invoke(result: CallResult) returns (called: bool, error: Option<FutureError>)
      modifies state
      ensures called <==> state != null
      ensures state == null ==> error == Some(NoState)
      ensures state != null && old(state.outcome) == None ==>
                IsOutcomeOf(state.outcome, result) && error == None
      ensures state != null && old(state.outcome).Some? ==>
                state.outcome == old(state.outcome) && error == Some(AlreadySatisfied)
    {
      if state == null {
        return false, Some(NoState);
      }
      called := true;
      match result
      case Throws(e) =>
        error := state.Set(Exception(e));
      case Returns(v) =>
        error := state.Set(Value(v));
        if error.Some? {
          error := state.Set(FUTURE_ERROR);
        }
      case CopyThrows(e) =>
        error := state.Set(Exception(e));
        if error.Some? {
          error := state.Set(FUTURE_ERROR);
        }
    }

    method Reset() returns (error: Option<FutureError>)
      modifies this, state
      ensures callable == old(callable)
      ensures old(state) == null ==> error == Some(NoState) && state == null
      ensures old(state) != null ==>
                && error == None && state != null && fresh(state) && state.outcome == None
                && old(state).outcome == Settle(old(state.outcome), BrokenPromise)
    {
      if state == null {
        return Some(NoState);
      }
      var newState := new SharedState();
      state.BreakPromise();
      state := newState;
      return None;
    }

    /** The destructor. */
    method Destroy()
      modifies state
      ensures state != null ==> state.outcome == Settle(old(state.outcome), BrokenPromise)
    {
      if state != null {
        state.BreakPromise();
      }
    }
  }

  // Histories

  datatype Slot = Dead | Alive(callable: Option<Callable>, state: Option<StateId>)

  datatype Call = Call(callable: Option<Callable>, state: StateId, result: CallResult)

  /** All tasks and shared states there ever were.  `maker[k]` is the callable of the task that
      state k was allocated for, `calls` the invocations in order. */
  datatype World = World(
    tasks: seq<Slot>, states: seq<Option<Outcome>>, maker: seq<Option<Callable>>, calls: seq<Call>,
    errors: seq<FutureError>)

  datatype Op =
    | New(f: Callable) | NewEmpty | MoveNew(from: TaskName)
    | MoveTo(to: TaskName, from: TaskName) | SwapWith(a: TaskName, b: TaskName)
    | Invoke(t: TaskName, result: CallResult) | Reset(t: TaskName) | Destroy(t: TaskName)

  predicate IsAlive(w: World, t: TaskName) {
    t < |w.tasks| && w.tasks[t].Alive?
  }

  function Settled(w: World, k: Option<StateId>, next: Outcome): World {
    if k.Some? && k.value < |w.states| then w.(states := w.states[k.value := Settle(w.states[k.value], next)]) else w
  }

  function Break(w: World, k: Option<StateId>): World {
    Settled(w, k, BrokenPromise)
  }

  function Allocate(w: World, f: Option<Callable>): World {
    w.(states := w.states + [None], maker := w.maker + [f])
  }

  function Fail(w: World, error: FutureError): World {
    w.(errors := w.errors + [error])
  }

  const EMPTY := Alive(None, None)

  function DoInvoke(w: World, t: TaskName, result: CallResult): World
    requires IsAlive(w, t)
  {
    var k := w.tasks[t].state;
    if k.None? then Fail(w, NoState)
    else
      var w' := Settled(w, k, Stored(result)).(calls := w.calls + [Call(w.tasks[t].callable, k.value, result)]);
      if k.value < |w.states| && w.states[k.value].Some? then Fail(w', AlreadySatisfied) else w'
  }

  function DoReset(w: World, t: TaskName): World
    requires IsAlive(w, t)
  {
    if w.tasks[t].state.None? then Fail(w, NoState)
    else
      Allocate(Break(w, w.tasks[t].state), w.tasks[t].callable)
      .(tasks := w.tasks[t := w.tasks[t].(state := Some(|w.states|))])
  }

  /** None when the operation names a task that does not exist (any more). */
  function Step(w: World, op: Op): Option<World> {
    match op
    case New(f) => Some(Allocate(w, Some(f)).(tasks := w.tasks + [Alive(Some(f), Some(|w.states|))]))
    case NewEmpty => Some(w.(tasks := w.tasks + [EMPTY]))
    case MoveNew(from) =>
      if !IsAlive(w, from) then None
      else Some(w.(tasks := w.tasks[from := EMPTY] + [w.tasks[from]]))
    case MoveTo(to, from) =>
      if !IsAlive(w, to) || !IsAlive(w, from) then None
      else if to == from then Some(w)
      else Some(Break(w, w.tasks[to].state).(tasks := w.tasks[to := w.tasks[from]][from := EMPTY]))
    case SwapWith(a, b) =>
      if !IsAlive(w, a) || !IsAlive(w, b) then None
      else Some(w.(tasks := w.tasks[a := w.tasks[b]][b := w.tasks[a]]))
    case Invoke(t, result) => if !IsAlive(w, t) then None else Some(DoInvoke(w, t, result))
    case Reset(t) => if !IsAlive(w, t) then None else Some(DoReset(w, t))
    case Destroy(t) =>
      if !IsAlive(w, t) then None
      else Some(Break(w, w.tasks[t].state).(tasks := w.tasks[t := Dead]))
  }

  predicate Owns(slot: Slot, k: StateId) {
    slot.Alive? && slot.state == Some(k)
  }

  predicate Owned(w: World, k: StateId) {
    exists t :: 0 <= t < |w.tasks| && Owns(w.tasks[t], k)
  }

  /** The first call made for state k. */
  function FirstCall(calls: seq<Call>, k: StateId): Option<Call> {
    if calls == [] then None
    else
      var before := FirstCall(calls[..|calls| - 1], k);
      var last := calls[|calls| - 1];
      if before.None? && last.state == k then Some(last) else before
  }

  /** What state k should hold: the result of the first call; failing that, a broken promise
      if nobody owns it any more; failing that, nothing yet. */
  function Expected(calls: seq<Call>, k: StateId, owned: bool): Option<Outcome> {
    match FirstCall(calls, k)
    case Some(call) => Some(Stored(call.result))
    case None => if owned then None else Some(BrokenPromise)
  }

  predicate SlotOk(w: World, slot: Slot) {
    slot.Alive? ==>
      match slot.state
      case None => slot.callable == None
      case Some(k) => k < |w.maker| && slot.callable == w.maker[k]
  }

  ghost predicate OneOwner(tasks: seq<Slot>) {
    forall t, u, k :: 0 <= t < |tasks| && 0 <= u < |tasks| && Owns(tasks[t], k) && Owns(tasks[u], k) ==> t == u
  }

  predicate CallsOk(w: World) {
    forall call <- w.calls :: call.state < |w.maker| && call.callable == w.maker[call.state]
  }

  ghost predicate TasksOk(w: World) {
    |w.states| == |w.maker| && OneOwner(w.tasks) && forall t :: 0 <= t < |w.tasks| ==> SlotOk(w, w.tasks[t])
  }

  predicate StatesOk(w: World) {
    forall k :: 0 <= k < |w.states| ==> w.states[k] == Expected(w.calls, k, Owned(w, k))
  }

  ghost predicate Inv(w: World) {
    TasksOk(w) && CallsOk(w) && StatesOk(w)
  }

  predicate Init(w: World) {
    w == World([], [], [], [], [])
  }

  ghost predicate Steps(w: World, w': World) {
    exists op :: Step(w, op) == Some(w')
  }

  /** Allocation is the only way to a new state; nothing else changes a maker. */
  lemma StepMakers(w: World, op: Op, w': World)
    requires |w.states| == |w.maker| && Step(w, op) == Some(w')
    ensures |w'.states| == |w'.maker| && w.maker <= w'.maker
    ensures forall slot :: SlotOk(w, slot) ==> SlotOk(w', slot)
  {
  }

  lemma StepSlots(w: World, op: Op, w': World)
    requires |w.states| == |w.maker| && Step(w, op) == Some(w')
    requires forall t :: 0 <= t < |w.tasks| ==> SlotOk(w, w.tasks[t])
    ensures forall t :: 0 <= t < |w'.tasks| ==> SlotOk(w', w'.tasks[t])
  {
    StepMakers(w, op, w');
  }

  /** The slot a slot's state comes from: its own, or the one it was moved from. */
  function Source(w: World, op: Op, t: TaskName): TaskName {
    match op
    case MoveNew(from) => if t == |w.tasks| then from else t
    case MoveTo(to, from) => if t == to then from else t
    case SwapWith(a, b) => if t == a then b else if t == b then a else t
    case _ => t
  }

  /** A task owns after a step what its source owned before, or a new state. */
  lemma StepOwner(w: World, op: Op, w': World, t: TaskName, k: StateId)
    requires Step(w, op) == Some(w') && t < |w'.tasks| && Owns(w'.tasks[t], k)
    requires |w.states| == |w.maker| && forall u :: 0 <= u < |w.tasks| ==> SlotOk(w, w.tasks[u])
    ensures if k == |w.states| && |w'.states| > |w.states| && (op.New? || op.Reset?)
            then t == if op.New? then |w.tasks| else op.t
            else Source(w, op, t) < |w.tasks| && Owns(w.tasks[Source(w, op, t)], k)
  {
  }

  lemma StepOneOwner(w: World, op: Op, w': World)
    requires TasksOk(w) && Step(w, op) == Some(w')
    ensures OneOwner(w'.tasks)
  {
    forall t, u, k | 0 <= t < |w'.tasks| && 0 <= u < |w'.tasks| && Owns(w'.tasks[t], k) && Owns(w'.tasks[u], k)
      ensures t == u
    {
      StepOwner(w, op, w', t, k);
      StepOwner(w, op, w', u, k);
    }
  }

  /** A step changes slots of tasks without giving a state two owners. */
  lemma StepTasksOk(w: World, op: Op, w': World)
    requires TasksOk(w) && Step(w, op) == Some(w')
    ensures TasksOk(w')
  {
    StepMakers(w, op, w');
    StepSlots(w, op, w');
    StepOneOwner(w, op, w');
  }

  lemma StepCallsOk(w: World, op: Op, w': World)
    requires TasksOk(w) && CallsOk(w) && Step(w, op) == Some(w')
    ensures CallsOk(w')
  {
  }

  /** The task whose shared state an operation gives up. */
  function Releaser(op: Op): Option<TaskName> {
    match op
    case MoveTo(to, from) => if to == from then None else Some(to)
    case Reset(t) => Some(t)
    case Destroy(t) => Some(t)
    case _ => None
  }

  predicate Releases(w: World, op: Op, k: StateId) {
    var t := Releaser(op);
    t.Some? && t.value < |w.tasks| && Owns(w.tasks[t.value], k)
  }

  /** A state keeps its owner, through moves and swaps, until that owner gives it up. */
  lemma OwnedAfter(w: World, op: Op, w': World, k: StateId)
    requires TasksOk(w) && Step(w, op) == Some(w') && k < |w.states|
    ensures Owned(w', k) <==> Owned(w, k) && !Releases(w, op, k)
  {
    if Owned(w, k) && !Releases(w, op, k) {
      var t :| 0 <= t < |w.tasks| && Owns(w.tasks[t], k);
      match op
      case MoveNew(from) => assert Owns(w'.tasks[if t == from then |w.tasks| else t], k);
      case MoveTo(to, from) => assert Owns(w'.tasks[if t == from then to else t], k);
      case SwapWith(a, b) => assert Owns(w'.tasks[if t == a then b else if t == b then a else t], k);
      case _ => assert Owns(w'.tasks[t], k);
    }
    if Owned(w', k) {
      OwnedBefore(w, op, w', k);
    }
  }

  lemma OwnedBefore(w: World, op: Op, w': World, k: StateId)
    requires TasksOk(w) && Step(w, op) == Some(w') && k < |w.states| && Owned(w', k)
    ensures Owned(w, k) && !Releases(w, op, k)
  {
    var t :| 0 <= t < |w'.tasks| && Owns(w'.tasks[t], k);
    match op
    case MoveNew(from) => assert Owns(w.tasks[if t == |w.tasks| then from else t], k);
    case MoveTo(to, from) => assert Owns(w.tasks[if t == to then from else t], k);
    case SwapWith(a, b) => assert Owns(w.tasks[if t == a then b else if t == b then a else t], k);
    case _ => assert Owns(w.tasks[t], k);
  }

  predicate Invokes(w: World, op: Op, k: StateId) {
    op.Invoke? && op.t < |w.tasks| && Owns(w.tasks[op.t], k)
  }

  /** What a step writes into a shared state that exists. */
  lemma StateAfter(w: World, op: Op, w': World, k: StateId)
    requires TasksOk(w) && Step(w, op) == Some(w') && k < |w.states|
    ensures k < |w'.states|
    ensures w'.states[k] == if Releases(w, op, k) then Settle(w.states[k], BrokenPromise)
                            else if Invokes(w, op, k) then Settle(w.states[k], Stored(op.result))
                            else w.states[k]
    ensures FirstCall(w'.calls, k) ==
            if Invokes(w, op, k) && FirstCall(w.calls, k) == None
            then Some(Call(w.tasks[op.t].callable, k, op.result)) else FirstCall(w.calls, k)
  {
    if w'.calls != w.calls {
      assert w'.calls[..|w.calls|] == w.calls;
    }
  }

  /** A state is owned from the moment it exists, and nobody has called anything for it yet. */
  lemma NewStateOk(w: World, op: Op, w': World)
    requires TasksOk(w) && CallsOk(w) && Step(w, op) == Some(w')
    ensures |w.states| <= |w'.states| <= |w.states| + 1
    ensures |w'.states| > |w.states| ==>
              && w'.states[|w.states|] == None && Owned(w', |w.states|)
              && w'.calls == w.calls && FirstCall(w.calls, |w.states|) == None
  {
    if |w'.states| > |w.states| {
      NoCallYet(w.calls, |w.states|);
      assert Owns(w'.tasks[if op.New? then |w.tasks| else op.t], |w.states|);
    }
  }

  lemma {:induction false} NoCallYet(calls: seq<Call>, k: StateId)
    requires forall call <- calls :: call.state != k
    ensures FirstCall(calls, k) == None
  {
    if calls != [] {
      NoCallYet(calls[..|calls| - 1], k);
    }
  }

  lemma StepKeepsInv(w: World, op: Op, w': World)
    requires Inv(w) && Step(w, op) == Some(w')
    ensures Inv(w')
  {
    StepTasksOk(w, op, w');
    StepCallsOk(w, op, w');
    NewStateOk(w, op, w');
    forall k: StateId | k < |w'.states| ensures w'.states[k] == Expected(w'.calls, k, Owned(w', k)) {
      if k < |w.states| {
        OwnedAfter(w, op, w', k);
        StateAfter(w, op, w', k);
        assert w.states[k] == Expected(w.calls, k, Owned(w, k));
        assert Releases(w, op, k) || Invokes(w, op, k) ==> Owned(w, k);
      }
    }
  }

  // The theorems, over every history

  lemma StepsPreserveInv()
    ensures Preserved(Steps, Inv)
  {
    forall w, w' | Inv(w) && Steps(w, w') ensures Inv(w') {
      var op :| Step(w, op) == Some(w');
      StepKeepsInv(w, op, w');
    }
  }

  lemma HistoryHasInv(history: seq<World>, i: nat)
    requires IsRun(Init, Steps, history) && i < |history|
    ensures Inv(history[i])
  {
    StepsPreserveInv();
    InvariantHolds(Init, Steps, Inv, history);
  }

  lemma HistoryStep(history: seq<World>, i: nat)
    requires IsRun(Init, Steps, history) && i + 1 < |history|
    ensures TasksOk(history[i]) && Steps(history[i], history[i + 1])
  {
    HistoryHasInv(history, i);
  }

  /** Call j is the first of those made for state k. */
  predicate IsFirstCall(calls: seq<Call>, k: StateId, j: nat) {
    j < |calls| && calls[j].state == k && forall i :: 0 <= i < j ==> calls[i].state != k
  }

  /** What a shared state holds after any history is decided by the calls alone: what the first
      call made for it, by the callable it was made for, returned or threw; without a call, a broken
      promise once no task owns it; and it is empty exactly while it is owned and uncalled.
      So no state is abandoned unready. */
  lemma OutcomeDecided(history: seq<World>, i: nat, k: StateId)
    requires IsRun(Init, Steps, history) && i < |history| && k < |history[i].states|
    ensures forall j: nat :: IsFirstCall(history[i].calls, k, j) ==>
              && IsOutcomeOf(history[i].states[k], history[i].calls[j].result)
              && k < |history[i].maker| && history[i].calls[j].callable == history[i].maker[k]
    ensures (forall call <- history[i].calls :: call.state != k) ==>
              history[i].states[k] == if Owned(history[i], k) then None else Some(BrokenPromise)
    ensures history[i].states[k] == None <==>
              Owned(history[i], k) && forall call <- history[i].calls :: call.state != k
  {
    HistoryHasInv(history, i);
    DecidedByCalls(history[i], k);
  }

  lemma DecidedByCalls(w: World, k: StateId)
    requires Inv(w) && k < |w.states|
    ensures forall j: nat :: IsFirstCall(w.calls, k, j) ==>
              && IsOutcomeOf(w.states[k], w.calls[j].result)
              && k < |w.maker| && w.calls[j].callable == w.maker[k]
    ensures (forall call <- w.calls :: call.state != k) ==>
              w.states[k] == if Owned(w, k) then None else Some(BrokenPromise)
    ensures w.states[k] == None <==> Owned(w, k) && forall call <- w.calls :: call.state != k
  {
    assert w.states[k] == Expected(w.calls, k, Owned(w, k));
    FirstCallIsOne(w.calls, k);
    forall j: nat | IsFirstCall(w.calls, k, j)
      ensures IsOutcomeOf(w.states[k], w.calls[j].result) && w.calls[j] in w.calls
    {
      FirstCallFound(w.calls, k, j);
    }
    if forall call <- w.calls :: call.state != k {
      NoCallYet(w.calls, k);
    } else {
      CallMeansFirst(w.calls, k);
    }
  }

  lemma {:induction false} FirstCallIsOne(calls: seq<Call>, k: StateId)
    ensures FirstCall(calls, k).Some? ==> FirstCall(calls, k).value in calls && FirstCall(calls, k).value.state == k
  {
    if calls != [] {
      FirstCallIsOne(calls[..|calls| - 1], k);
    }
  }

  lemma {:induction false} FirstCallFound(calls: seq<Call>, k: StateId, j: nat)
    requires IsFirstCall(calls, k, j)
    ensures FirstCall(calls, k) == Some(calls[j])
  {
    var before := calls[..|calls| - 1];
    if j < |before| {
      assert IsFirstCall(before, k, j);
      FirstCallFound(before, k, j);
    } else {
      forall call <- before ensures call.state != k {
        var i :| 0 <= i < |before| && before[i] == call;
        assert calls[i] == call;
      }
      NoCallYet(before, k);
    }
  }

  /** The first outcome survives everything that follows. */
  lemma OutcomeStays(history: seq<World>, i: nat, j: nat, k: StateId)
    requires IsRun(Init, Steps, history) && i <= j < |history|
    requires k < |history[i].states| && history[i].states[k].Some?
    ensures k < |history[j].states| && history[j].states[k] == history[i].states[k]
  {
    var outcome := history[i].states[k].value;
    forall m: nat | i <= m < j && HasOutcome(history[m], k, outcome) ensures HasOutcome(history[m + 1], k, outcome) {
      NextKeepsOutcome(history, m, k);
    }
    KeptFrom(history, i, j, (w: World) => HasOutcome(w, k, outcome));
  }

  predicate HasOutcome(w: World, k: StateId, outcome: Outcome) {
    k < |w.states| && w.states[k] == Some(outcome)
  }

  lemma NextKeepsOutcome(history: seq<World>, i: nat, k: StateId)
    requires IsRun(Init, Steps, history) && i + 1 < |history|
    requires k < |history[i].states| && history[i].states[k].Some?
    ensures k < |history[i + 1].states| && history[i + 1].states[k] == history[i].states[k]
  {
    HistoryStep(history, i);
    StepKeepsOutcome(history[i], history[i + 1], k);
  }

  lemma StepKeepsOutcome(w: World, w': World, k: StateId)
    requires TasksOk(w) && Steps(w, w') && k < |w.states| && w.states[k].Some?
    ensures k < |w'.states| && w'.states[k] == w.states[k]
  {
    var op :| Step(w, op) == Some(w');
    StateAfter(w, op, w', k);
  }

  /** Invoking: a task without a state fails with no_state and calls nothing; otherwise the
      callable runs, the first time for this state it settles it, and every further time the
      invocation fails with promise_already_satisfied. */
  lemma InvokeAgain(w: World, t: TaskName, result: CallResult, w': World)
    requires Inv(w) && Step(w, Invoke(t, result)) == Some(w')
    ensures IsAlive(w, t)
    ensures w.tasks[t].state == None ==> w' == Fail(w, NoState)
    ensures w.tasks[t].state.Some? ==>
              var k := w.tasks[t].state.value;
              && k < |w.states| == |w'.states| && w'.tasks == w.tasks
              && w'.calls == w.calls + [Call(w.tasks[t].callable, k, result)]
              && ((forall call <- w.calls :: call.state != k) ==>
                    IsOutcomeOf(w'.states[k], result) && w'.errors == w.errors)
              && ((exists call <- w.calls :: call.state == k) ==>
                    w'.states == w.states && w'.errors == w.errors + [AlreadySatisfied])
  {
    if w.tasks[t].state.Some? {
      var k := w.tasks[t].state.value;
      assert Owns(w.tasks[t], k);
      assert w.states[k] == Expected(w.calls, k, Owned(w, k));
      FirstCallIsOne(w.calls, k);
      if exists call <- w.calls :: call.state == k {
        CallMeansFirst(w.calls, k);
      } else {
        NoCallYet(w.calls, k);
      }
    }
  }

  lemma {:induction false} CallMeansFirst(calls: seq<Call>, k: StateId)
    requires exists call <- calls :: call.state == k
    ensures FirstCall(calls, k).Some?
  {
    var before := calls[..|calls| - 1];
    assert calls == before + [calls[|calls| - 1]];
    if exists call <- before :: call.state == k {
      CallMeansFirst(before, k);
    }
  }
}
