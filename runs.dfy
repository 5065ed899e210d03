/**
 Loops that build a list element by element and stop at the first
 element that fails, keeping what was built before it.
 */
module Runs {
  import opened Wrappers
  import opened Errors

  /** The items a loop has produced so far, and the error that stopped it, if any. */
  datatype Run<T> = Run(items: seq<T>, err: Option<Error>)

  /** The loop over the first `k` elements: `step` is applied to each in turn until one fails. */
  function RunTo<A, T>(step: A -> Result<T>, xs: seq<A>, k: nat): Run<T>
    requires k <= |xs|
    decreases k
  {
    if k == 0 then Run([], None)
    else
      var prev := RunTo(step, xs, k - 1);
      if prev.err.Some? then prev
      else
        match step(xs[k - 1])
        case Failure(e) => Run(prev.items, Some(e))
        case Success(t) => Run(prev.items + [t], None)
  }

  /** Once the loop has failed, running it over more elements changes nothing. */
  lemma {:induction false} RunSticks<A, T>(step: A -> Result<T>, xs: seq<A>, i: nat, j: nat)
    requires i <= j <= |xs| && RunTo(step, xs, i).err.Some?
    ensures RunTo(step, xs, j) == RunTo(step, xs, i)
    decreases j
  {
    if j > i {
      RunSticks(step, xs, i, j - 1);
    }
  }

  /**
   The loop keeps exactly the results of the elements before the first
   failing one, in order; it fails exactly when some element fails, and
   then with the error of the first such element.
   */
  lemma {:induction false} RunAll<A, T>(step: A -> Result<T>, xs: seq<A>, k: nat)
    requires k <= |xs|
    ensures var run := RunTo(step, xs, k);
      && |run.items| <= k
      && (forall i :: 0 <= i < |run.items| ==> step(xs[i]) == Success(run.items[i]))
      && (run.err.None? <==> |run.items| == k)
      && (run.err.Some? ==> step(xs[|run.items|]) == Failure(run.err.value))
    decreases k
  {
    if k > 0 {
      RunAll(step, xs, k - 1);
    }
  }

  /** How far a loop over a list got, counting the element it failed on, and how it ended. */
  datatype Swept = Swept(visited: nat, outcome: Outcome)

  /** A loop that applies `op` to each element from position `i` on, in order, and stops at the first failure. */
  function Sweep<A>(xs: seq<A>, op: A -> Outcome, i: nat): Swept
    requires i <= |xs|
    decreases |xs| - i
  {
    if i == |xs| then Swept(i, Pass)
    else if op(xs[i]).Fail? then Swept(i + 1, op(xs[i]))
    else Sweep(xs, op, i + 1)
  }

  /** When every element from `i` on passes, the loop visits them all and passes. */
  lemma {:induction false} SweepPasses<A>(xs: seq<A>, op: A -> Outcome, i: nat)
    requires i <= |xs| && forall j :: i <= j < |xs| ==> op(xs[j]).Pass?
    ensures Sweep(xs, op, i) == Swept(|xs|, Pass)
    decreases |xs| - i
  {
    if i < |xs| {
      SweepPasses(xs, op, i + 1);
    }
  }

  /** When element `k` is the first to fail from `i` on, the loop ends there with its error. */
  lemma {:induction false} SweepFailsAt<A>(xs: seq<A>, op: A -> Outcome, i: nat, k: nat)
    requires i <= k < |xs| && op(xs[k]).Fail? && forall j :: i <= j < k ==> op(xs[j]).Pass?
    ensures Sweep(xs, op, i) == Swept(k + 1, op(xs[k]))
    decreases k - i
  {
    if i < k {
      SweepFailsAt(xs, op, i + 1, k);
    }
  }

  /**
   The loop from `i` reaches the end exactly when every element from `i`
   on passes; otherwise it stops on the first element that fails, with
   that element's error, every element before it having passed.
   */
  lemma {:induction false} SweepStops<A>(xs: seq<A>, op: A -> Outcome, i: nat)
    requires i <= |xs|
    ensures var s := Sweep(xs, op, i);
      && i <= s.visited <= |xs|
      && (forall j :: i <= j < s.visited - 1 ==> op(xs[j]) == Pass)
      && (s.outcome.Pass? <==> forall j :: i <= j < |xs| ==> op(xs[j]) == Pass)
      && (s.outcome.Pass? ==> s.visited == |xs|)
      && (s.outcome.Fail? ==> i < s.visited && op(xs[s.visited - 1]) == s.outcome)
    decreases |xs| - i
  {
    if i < |xs| && op(xs[i]).Pass? {
      SweepStops(xs, op, i + 1);
    }
  }
}
