/** Result types shared by every component. */
module Prelude {

  datatype Option<+T> = None | Some(value: T)

  datatype Result<+T, +E> = Ok(value: T) | Err(error: E)

  ghost predicate StepAt<S(!new)>(next: (S, S) -> bool, run: seq<S>, i: nat)
    requires i + 1 < |run|
  {
    next(run[i], run[i + 1])
  }

  /** A non-empty chain of states, each the successor of the one before it. */
  ghost predicate IsRun<S(!new)>(next: (S, S) -> bool, run: seq<S>) {
    |run| > 0 && forall i: nat :: i + 1 < |run| ==> StepAt(next, run, i)
  }

  lemma RunFrom<S(!new)>(next: (S, S) -> bool, s: S, rest: seq<S>)
    requires IsRun(next, rest) && next(s, rest[0])
    ensures IsRun(next, [s] + rest)
  {
    var run := [s] + rest;
    forall i: nat | i + 1 < |run| ensures StepAt(next, run, i) {
      if i > 0 { assert StepAt(next, rest, i - 1); }
    }
  }

  /** Runs that meet in a state make one run. */
  lemma JoinRuns<S(!new)>(next: (S, S) -> bool, run: seq<S>, more: seq<S>)
    requires IsRun(next, run) && IsRun(next, more) && run[|run| - 1] == more[0]
    ensures IsRun(next, run + more[1..])
  {
    var whole := run + more[1..];
    forall i: nat | i + 1 < |whole| ensures StepAt(next, whole, i) {
      if i + 1 < |run| {
        assert StepAt(next, run, i);
      } else {
        assert StepAt(next, more, i + 1 - |run|);
      }
    }
  }

  /** What holds first and is kept by every step holds everywhere in a run. */
  lemma {:induction false} RunInvariant<S(!new)>(next: (S, S) -> bool, inv: S -> bool, run: seq<S>, i: nat)
    requires IsRun(next, run) && i < |run|
    requires inv(run[0])
    requires forall s, t :: inv(s) && next(s, t) ==> inv(t)
    ensures inv(run[i])
  {
    if i > 0 {
      RunInvariant(next, inv, run, i - 1);
      assert StepAt(next, run, i - 1);
    }
  }

  /** A reflexive and transitive relation kept by every step relates any state of a run to every later one. */
  lemma {:induction false} RunRelation<S(!new)>(next: (S, S) -> bool, rel: (S, S) -> bool, run: seq<S>, i: nat, j: nat)
    requires IsRun(next, run) && i <= j < |run|
    requires forall s :: rel(s, s)
    requires forall s, t, u :: rel(s, t) && next(t, u) ==> rel(s, u)
    ensures rel(run[i], run[j])
  {
    if i < j {
      RunRelation(next, rel, run, i, j - 1);
      assert StepAt(next, run, j - 1);
    }
  }
}
