/** A program that owns packaged tasks on the heap.  Each operation on them is one step of the
    history model, so that what PackagedTask proves of histories holds of the objects. */
module PackagedTaskObject {
  import opened Runs
  import opened WaitProtocol
  import opened PackagedTask

  class Program {
    var tasks: seq<Handle>
    /** Destroyed tasks keep their place in `tasks`. */
    var alive: seq<bool>
    var states: seq<SharedState>
    /** Which state each task refers to. */
    ghost var refs: seq<Option<StateId>>
    ghost var maker: seq<Option<Callable>>
    ghost var calls: seq<Call>
    ghost var errors: seq<FutureError>

    ghost predicate Shaped()
      reads this, tasks, states
    {
      && |alive| == |refs| == |tasks|
      && (forall t, u :: 0 <= t < u < |tasks| ==> tasks[t] != tasks[u])
      && (forall k, l :: 0 <= k < l < |states| ==> states[k] != states[l])
      && forall t :: 0 <= t < |tasks| && alive[t] ==> Refers(tasks[t].state, refs[t])
    }

    ghost predicate Refers(state: SharedState?, ref: Option<StateId>)
      reads this
    {
      match ref
      case None => state == null
      case Some(k) => k < |states| && state == states[k]
    }

    ghost function View(): World
      requires |alive| == |refs| == |tasks|
      reads this, tasks, states
    {
      World(seq(|tasks|, t requires 0 <= t < |tasks| reads this, tasks =>
              if t < |alive| == |refs| && alive[t] then Alive(tasks[t].callable, refs[t]) else Dead),
            seq(|states|, k requires 0 <= k < |states| reads this, states => states[k].outcome),
            maker, calls, errors)
    }

    /** Objects are never replaced, only added. */
    twostate predicate Grown()
      reads this
    {
      && (forall t :: 0 <= t < |tasks| ==> tasks[t] in old(tasks) || fresh(tasks[t]))
      && (forall k :: 0 <= k < |states| ==> states[k] in old(states) || fresh(states[k]))
    }

    constructor ()
      ensures Shaped() && Init(View()) && tasks == [] && states == []
    {
      tasks, alive, states, refs, maker, calls, errors := [], [], [], [], [], [], [];
    }

    ghost method Record(error: Option<FutureError>)
      modifies `errors
      ensures errors == old(errors) + if error.Some? then [error.value] else []
    {
      if error.Some? {
        errors := errors + [error.value];
      }
    }

    method Invoke(t: TaskName, result: CallResult)
      requires Shaped() && t < |tasks| && alive[t]
      modifies this`calls, this`errors, states
      ensures Shaped() && Step(old(View()), Op.Invoke(t, result)) == Some(View())
    {
      var called, error := tasks[t].Invoke(result);
      if called {
        calls := calls + [Call(tasks[t].callable, refs[t].value, result)];
      }
      Record(error);
      ghost var before := old(View());
      ghost var expected := Step(before, Op.Invoke(t, result)).value;
      assert before.tasks[t] == Alive(tasks[t].callable, refs[t]);
      assert refs[t].Some? ==> before.states[refs[t].value] == old(tasks[t].state.outcome);
      assert View().tasks == expected.tasks;
      assert View().states == expected.states;
      assert View().errors == expected.errors;
    }

    method Swap(a: TaskName, b: TaskName)
      requires Shaped() && a < |tasks| && alive[a] && b < |tasks| && alive[b]
      modifies this`refs, tasks
      ensures Shaped() && Step(old(View()), SwapWith(a, b)) == Some(View())
    {
      tasks[a].Swap(tasks[b]);
      refs := refs[a := refs[b]][b := refs[a]];
      ghost var expected := Step(old(View()), SwapWith(a, b)).value;
      assert View().tasks == expected.tasks;
      assert View().states == expected.states;
    }

    method MoveTo(to: TaskName, from: TaskName)
      requires Shaped() && to < |tasks| && alive[to] && from < |tasks| && alive[from]
      modifies this`refs, tasks, states
      ensures Shaped() && Step(old(View()), Op.MoveTo(to, from)) == Some(View())
    {
      tasks[to].MoveAssign(tasks[from]);
      if to != from {
        refs := refs[to := refs[from]][from := None];
      }
      ghost var expected := Step(old(View()), Op.MoveTo(to, from)).value;
      assert View().tasks == expected.tasks;
      assert View().states == expected.states;
    }

    method Destroy(t: TaskName)
      requires Shaped() && t < |tasks| && alive[t]
      modifies this`alive, states
      ensures Shaped() && Step(old(View()), Op.Destroy(t)) == Some(View())
    {
      tasks[t].Destroy();
      alive := alive[t := false];
      ghost var expected := Step(old(View()), Op.Destroy(t)).value;
      assert View().tasks == expected.tasks;
      assert View().states == expected.states;
    }

    method New(f: Callable)
      requires Shaped()
      modifies this
      ensures Shaped() && Step(old(View()), Op.New(f)) == Some(View())
      ensures Grown()
    {
      var task := new Handle(f);
      refs := refs + [Some(|states|)];
      tasks, alive, states := tasks + [task], alive + [true], states + [task.state];
      maker := maker + [Some(f)];
      ghost var expected := Step(old(View()), Op.New(f)).value;
      assert View().tasks == expected.tasks;
      assert View().states == expected.states;
    }

    method NewEmpty()
      requires Shaped()
      modifies this
      ensures Shaped() && Step(old(View()), Op.NewEmpty) == Some(View())
      ensures Grown()
    {
      var task := new Handle.Empty();
      tasks, alive, refs := tasks + [task], alive + [true], refs + [None];
      ghost var expected := Step(old(View()), Op.NewEmpty).value;
      assert View().tasks == expected.tasks;
      assert View().states == expected.states;
    }

    method MoveNew(from: TaskName)
      requires Shaped() && from < |tasks| && alive[from]
      modifies this, tasks
      ensures Shaped() && Step(old(View()), Op.MoveNew(from)) == Some(View())
      ensures Grown()
    {
      var task := new Handle.Move(tasks[from]);
      refs := refs[from := None] + [refs[from]];
      tasks, alive := tasks + [task], alive + [true];
      ghost var expected := Step(old(View()), Op.MoveNew(from)).value;
      assert View().tasks == expected.tasks;
      assert View().states == expected.states;
    }

    /** The task's new state takes its place among the states. */
    method Register(t: TaskName)
      requires |alive| == |refs| == |tasks| && t < |tasks| && alive[t]
      requires forall t, u :: 0 <= t < u < |tasks| ==> tasks[t] != tasks[u]
      requires forall k, l :: 0 <= k < l < |states| ==> states[k] != states[l]
      requires forall u :: 0 <= u < |tasks| && alive[u] && u != t ==> Refers(tasks[u].state, refs[u])
      requires tasks[t].state != null && tasks[t].state !in states && tasks[t].state.outcome == None
      modifies this`refs, this`states, this`maker
      ensures Shaped() && alive == old(alive) && states == old(states) + [tasks[t].state]
      ensures View().states == old(View()).states + [None] && maker == old(maker) + [tasks[t].callable]
      ensures View().tasks == old(View()).tasks[t := Alive(tasks[t].callable, Some(|old(states)|))]
    {
      maker := maker + [tasks[t].callable];
      refs := refs[t := Some(|states|)];
      states := states + [tasks[t].state];
    }

    method Reset(t: TaskName)
      requires Shaped() && t < |tasks| && alive[t]
      modifies this, tasks, states
      ensures Shaped() && Step(old(View()), Op.Reset(t)) == Some(View())
      ensures Grown()
    {
      ghost var before := View();
      var error := tasks[t].Reset();
      if error == None {
        assert View().states == Break(before, refs[t]).states;
        assert forall u :: 0 <= u < |tasks| && u != t ==> View().tasks[u] == before.tasks[u];
        Register(t);
        assert View().tasks == Step(before, Op.Reset(t)).value.tasks;
      } else {
        Record(error);
        assert View().tasks == before.tasks;
        assert View().states == before.states;
      }
    }

    predicate Exists(t: TaskName)
      requires |alive| == |tasks|
      reads this
    {
      t < |tasks| && alive[t]
    }

    method Perform(op: Op) returns (done: bool)
      requires Shaped()
      modifies this, tasks, states
      ensures Shaped() && Grown()
      ensures match Step(old(View()), op)
              case None => !done && View() == old(View())
              case Some(w) => done && View() == w
    {
      done := true;
      match op
      case New(f) => New(f);
      case NewEmpty => NewEmpty();
      case MoveNew(from) => if Exists(from) { MoveNew(from); } else { done := false; }
      case MoveTo(to, from) => if Exists(to) && Exists(from) { MoveTo(to, from); } else { done := false; }
      case SwapWith(a, b) => if Exists(a) && Exists(b) { Swap(a, b); } else { done := false; }
      case Invoke(t, result) => if Exists(t) { Invoke(t, result); } else { done := false; }
      case Reset(t) => if Exists(t) { Reset(t); } else { done := false; }
      case Destroy(t) => if Exists(t) { Destroy(t); } else { done := false; }
    }

    /** Whatever is done with the tasks, in whatever order, is a history. */
    method Run(ops: seq<Op>) returns (ghost history: seq<World>)
      requires Shaped() && Init(View())
      modifies this, tasks, states
      ensures Shaped() && Grown() && IsRun(Init, Steps, history) && history[|history| - 1] == View()
    {
      history := [View()];
      for i := 0 to |ops|
        invariant Shaped() && Grown() && IsRun(Init, Steps, history) && history[|history| - 1] == View()
      {
        ghost var before := View();
        var done := Perform(ops[i]);
        if done {
          assert Step(before, ops[i]) == Some(View());
          ExtendRun(Init, Steps, history, View());
          history := history + [View()];
        }
      }
    }
  }
}
