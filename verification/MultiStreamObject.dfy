/** The context and items of a wait for n streams as objects: the registration loop as a loop,
    notify as a method of the item, and the callbacks under any schedule. */
module MultiStreamObject {
  import opened Runs
  import opened WaitProtocol
  import opened MultiStream

  /** The actor has done what it does next, or had nothing to do. */
  ghost predicate Follows(before: State, a: Actor, moved: bool, after: State)
    requires Sized(before)
  {
    match Next(before, a)
    case None => !moved && after == before
    case Some(s) => moved && after == s
  }

  class Context {
    const plan: seq<Registration>
    var next: nat
    var stages: seq<Stage>
    var errs: seq<Option<int>>
    var pending: int
    ghost var resumes: nat

    ghost function View(): State
      reads this
    {
      State(plan, next, stages, errs, pending, resumes)
    }

    ghost predicate Valid()
      reads this
    {
      Inv(View())
    }

    constructor (plan: seq<Registration>)
      ensures Init(View()) && this.plan == plan
    {
      this.plan := plan;
      next, pending, resumes := 0, |plan|, 0;
      stages, errs := seq(|plan|, _ => Unset), seq(|plan|, _ => None);
    }

    /** notify on item k, one action at a time: store the code, count down, resume. */
    method NotifyStep(k: nat) returns (moved: bool)
      requires Sized(View()) && k < |plan|
      modifies `stages, `errs, `pending, `resumes
      ensures match Notify(old(View()), k)
              case None => !moved && View() == old(View())
              case Some(s) => moved && View() == s
    {
      match stages[k]
      case Failed =>
        errs, stages := errs[k := Some(Code(plan[k]))], stages[k := Written];
        return true;
      case Armed =>
        errs, stages := errs[k := Some(Code(plan[k]))], stages[k := Written];
        return true;
      case Written =>
        var before := pending;
        pending := pending - 1;
        stages := stages[k := if before == 1 then Owing else Notified];
        return true;
      case Owing =>
        resumes := resumes + 1;
        stages := stages[k := Notified];
        return true;
      case _ =>
        return false;
    }

    /** The registration loop, one action at a time. */
    method LoopStep() returns (moved: bool)
      requires Sized(View())
      modifies `next, `stages, `errs, `pending, `resumes
      ensures Follows(old(View()), Loop, moved, View())
    {
      if next == |plan| {
        return false;
      }
      var stage := stages[next];
      if stage == Unset {
        stages := stages[next := Assigned];
        return true;
      }
      if stage == Assigned {
        stages := stages[next := if plan[next].Fails? then Failed else Armed];
        return true;
      }
      if plan[next].Succeeds? || stage == Notified {
        next := next + 1;
        return true;
      }
      moved := NotifyStep(next);
    }

    method Step(a: Actor) returns (moved: bool)
      requires Valid()
      modifies this
      ensures Valid() && Follows(old(View()), a, moved, View())
      ensures moved ==> Steps(old(View()), View())
    {
      ghost var before := View();
      moved := false;
      match a {
        case Loop => moved := LoopStep();
        case Callback(k) =>
          if k < |plan| && plan[k].Succeeds? {
            moved := NotifyStep(k);
          }
      }
      if moved {
        NextKeepsInv(before, a, View());
      }
    }

    /** Any interleaving of the loop and the callbacks is a run of the protocol. */
    method Run(schedule: seq<Actor>) returns (ghost run: seq<State>)
      requires Init(View())
      modifies this
      ensures Valid() && IsRun(Init, Steps, run)
      ensures run[0] == old(View()) && run[|run| - 1] == View()
    {
      run := [View()];
      InitHasInv(View());
      for i := 0 to |schedule|
        invariant Valid() && IsRun(Init, Steps, run)
        invariant run[0] == old(View()) && run[|run| - 1] == View()
      {
        var moved := Step(schedule[i]);
        if moved {
          ExtendRun(Init, Steps, run, View());
          run := run + [View()];
        }
      }
    }
  }
}
