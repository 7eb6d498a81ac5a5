/** Runs of a transition system: finite sequences of states joined by steps. */
module Runs {

  ghost predicate IsRun<S(!new)>(init: S -> bool, next: (S, S) -> bool, run: seq<S>) {
    && 0 < |run|
    && init(run[0])
    && forall i :: 0 <= i < |run| - 1 ==> next(run[i], run[i + 1])
  }

  ghost predicate Preserved<S(!new)>(next: (S, S) -> bool, inv: S -> bool) {
    forall s, s' :: inv(s) && next(s, s') ==> inv(s')
  }

  /** What holds at the start and is kept by every step holds in every state of a run. */
  lemma {:induction false} InvariantHolds<S(!new)>(init: S -> bool, next: (S, S) -> bool, inv: S -> bool, run: seq<S>)
    requires IsRun(init, next, run)
    requires inv(run[0]) && Preserved(next, inv)
    ensures forall i :: 0 <= i < |run| ==> inv(run[i])
  {
    if |run| > 1 {
      var n := |run| - 1;
      var before := run[..n];
      assert forall i :: 0 <= i < n ==> before[i] == run[i];
      InvariantHolds(init, next, inv, before);
      assert inv(before[n - 1]) && next(run[n - 1], run[n]);
    }
  }

  /** What each step of a stretch of a run keeps holds to the end of the stretch. */
  lemma {:induction false} KeptFrom<S>(run: seq<S>, a: nat, b: nat, p: S -> bool)
    requires a <= b < |run| && p(run[a])
    requires forall i :: a <= i < b && p(run[i]) ==> p(run[i + 1])
    ensures forall i :: a <= i <= b ==> p(run[i])
    decreases b - a
  {
    if a < b {
      assert p(run[a + 1]);
      KeptFrom(run, a + 1, b, p);
    }
  }

  ghost predicate Decreasing<S(!new)>(next: (S, S) -> bool, inv: S -> bool, measure: S -> int) {
    forall s, s' :: inv(s) && next(s, s') ==> measure(s') < measure(s)
  }

  /** A run cannot be longer than its starting measure. */
  lemma {:induction false} RunIsBounded<S(!new)>(
    init: S -> bool, next: (S, S) -> bool, inv: S -> bool, measure: S -> int, run: seq<S>)
    requires IsRun(init, next, run)
    requires inv(run[0]) && Preserved(next, inv) && Decreasing(next, inv, measure)
    ensures |run| - 1 + measure(run[|run| - 1]) <= measure(run[0])
  {
    if |run| > 1 {
      var n := |run| - 1;
      InvariantHolds(init, next, inv, run);
      var before := run[..n];
      assert forall i :: 0 <= i < n ==> before[i] == run[i];
      RunIsBounded(init, next, inv, measure, before);
      assert next(run[n - 1], run[n]);
    }
  }

  /** A conserved quantity has its starting value in every state. */
  lemma {:induction false} QuantityConserved<S(!new)>(
    init: S -> bool, next: (S, S) -> bool, inv: S -> bool, quantity: S -> int, run: seq<S>)
    requires IsRun(init, next, run)
    requires inv(run[0]) && Preserved(next, inv)
    requires forall s, s' :: inv(s) && next(s, s') ==> quantity(s') == quantity(s)
    ensures forall i :: 0 <= i < |run| ==> quantity(run[i]) == quantity(run[0])
  {
    var start := quantity(run[0]);
    InvariantHolds(init, next, s => inv(s) && quantity(s) == start, run);
  }

  lemma ExtendRun<S(!new)>(init: S -> bool, next: (S, S) -> bool, run: seq<S>, s: S)
    requires IsRun(init, next, run) && next(run[|run| - 1], s)
    ensures IsRun(init, next, run + [s])
  {
  }

  lemma ExtendByPath<S(!new)>(init: S -> bool, next: (S, S) -> bool, run: seq<S>, path: seq<S>)
    requires IsRun(init, next, run) && 0 < |path| && next(run[|run| - 1], path[0])
    requires forall i :: 0 <= i < |path| - 1 ==> next(path[i], path[i + 1])
    ensures IsRun(init, next, run + path)
  {
  }

  /** The run without its last state, and the step that it lacks. */
  lemma SplitRun<S(!new)>(init: S -> bool, next: (S, S) -> bool, run: seq<S>)
    requires IsRun(init, next, run) && |run| > 1
    ensures IsRun(init, next, run[..|run| - 1])
    ensures next(run[|run| - 2], run[|run| - 1])
  {
    var n := |run| - 1;
    assert forall i :: 0 <= i < n ==> run[..n][i] == run[i];
  }

  /** A lexicographic pair whose second part stays within 6n, packed into one number. */
  lemma LexicographicLowers(work: int, rank: int, work': int, rank': int, n: nat)
    requires work' < work || (work' == work && rank' < rank)
    requires rank' <= 6 * n && 0 <= rank
    ensures work' * (6 * n + 1) + rank' < work * (6 * n + 1) + rank
  {
    if work' < work {
      assert work * (6 * n + 1) >= (work' + 1) * (6 * n + 1);
      assert (work' + 1) * (6 * n + 1) == work' * (6 * n + 1) + 6 * n + 1;
    }
  }

  /** A run whose steps, given what it keeps, are all of a stricter kind. */
  lemma {:induction false} RunStrengthens<S(!new)>(
    init: S -> bool, next: (S, S) -> bool, strict: (S, S) -> bool, inv: S -> bool, run: seq<S>)
    requires IsRun(init, next, run) && inv(run[0])
    requires forall s, s' :: inv(s) && next(s, s') ==> strict(s, s') && inv(s')
    ensures IsRun(init, strict, run)
  {
    InvariantHolds(init, next, inv, run);
    forall i | 0 <= i < |run| - 1 ensures strict(run[i], run[i + 1]) {
      assert inv(run[i]) && next(run[i], run[i + 1]);
    }
  }
}
