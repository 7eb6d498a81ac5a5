/** Sums of a per-task quantity over all tasks.  A step of a protocol changes one or two
    tasks, so every counting invariant reduces to `SumUpdate`. */
module TaskSums {

  function Sum<T>(xs: seq<T>, f: T -> int): int {
    if |xs| == 0 then 0 else Sum(xs[..|xs| - 1], f) + f(xs[|xs| - 1])
  }

  lemma SumPrefix<T>(xs: seq<T>, j: nat, f: T -> int)
    requires 0 < j <= |xs|
    ensures Sum(xs[..j], f) == Sum(xs[..j - 1], f) + f(xs[j - 1])
  {
    assert xs[..j][..j - 1] == xs[..j - 1];
  }

  lemma {:induction false} SumUpdate<T>(xs: seq<T>, i: nat, x: T, f: T -> int)
    requires i < |xs|
    ensures Sum(xs[i := x], f) == Sum(xs, f) - f(xs[i]) + f(x)
  {
    var n := |xs| - 1;
    if i == n {
      assert xs[i := x][..n] == xs[..n];
    } else {
      assert xs[i := x][..n] == xs[..n][i := x];
      SumUpdate(xs[..n], i, x, f);
    }
  }

  lemma {:induction false} SumNonNegative<T>(xs: seq<T>, f: T -> int)
    requires forall x <- xs :: 0 <= f(x)
    ensures 0 <= Sum(xs, f)
  {
    if |xs| > 0 {
      SumNonNegative(xs[..|xs| - 1], f);
    }
  }

  /** One summand, or two different ones, never exceed the sum. */
  lemma {:induction false} SumAtLeast<T>(xs: seq<T>, i: nat, f: T -> int)
    requires i < |xs|
    requires forall x <- xs :: 0 <= f(x)
    ensures f(xs[i]) <= Sum(xs, f)
  {
    var n := |xs| - 1;
    SumNonNegative(xs[..n], f);
    if i < n {
      SumAtLeast(xs[..n], i, f);
    }
  }

  lemma {:induction false} SumAtLeastTwo<T>(xs: seq<T>, i: nat, j: nat, f: T -> int)
    requires i < j < |xs|
    requires forall x <- xs :: 0 <= f(x)
    ensures f(xs[i]) + f(xs[j]) <= Sum(xs, f)
  {
    var n := |xs| - 1;
    if j == n {
      SumAtLeast(xs[..n], i, f);
    } else {
      SumAtLeastTwo(xs[..n], i, j, f);
    }
  }

  lemma {:induction false} SumAtMost<T>(xs: seq<T>, c: nat, f: T -> int)
    requires forall x <- xs :: f(x) <= c
    ensures Sum(xs, f) <= c * |xs|
  {
    if |xs| > 0 {
      SumAtMost(xs[..|xs| - 1], c, f);
    }
  }

  lemma {:induction false} SumZero<T>(xs: seq<T>, f: T -> int)
    requires forall x <- xs :: f(x) == 0
    ensures Sum(xs, f) == 0
  {
    if |xs| > 0 {
      SumZero(xs[..|xs| - 1], f);
    }
  }

  /** A positive sum has a positive summand. */
  lemma {:induction false} SumWitness<T>(xs: seq<T>, f: T -> int) returns (i: nat)
    requires 0 < Sum(xs, f)
    ensures i < |xs| && 0 < f(xs[i])
  {
    i := |xs| - 1;
    if f(xs[i]) <= 0 {
      i := SumWitness(xs[..i], f);
    }
  }

  /** Two quantities that add up task by task add up in total. */
  lemma {:induction false} SumSplit<T, U>(xs: seq<T>, whole: T -> int, part: T -> int, ys: seq<U>, rest: U -> int)
    requires |xs| == |ys|
    requires forall i :: 0 <= i < |xs| ==> whole(xs[i]) == part(xs[i]) + rest(ys[i])
    ensures Sum(xs, whole) == Sum(xs, part) + Sum(ys, rest)
  {
    if |xs| > 0 {
      SumSplit(xs[..|xs| - 1], whole, part, ys[..|ys| - 1], rest);
    }
  }

  lemma {:induction false} SumFirst<T>(xs: seq<T>, f: T -> int)
    requires xs != []
    ensures Sum(xs, f) == f(xs[0]) + Sum(xs[1..], f)
    decreases |xs|
  {
    var n := |xs| - 1;
    if n > 0 {
      assert xs[..n][1..] == xs[1..][..n - 1];
      SumFirst(xs[..n], f);
    } else {
      assert Sum(xs[..0], f) == 0;
    }
  }
}
