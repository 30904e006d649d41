/** Whole runs: what every reachable state satisfies, what only grows, and how to find
    the step at which something became true. */
module Runs {
  import opened Lifecycle
  import opened Invariant
  import opened KeepTick
  import opened Threads

  /** `run[i + 1]` is what step `steps[i]` makes of `run[i]`. */
  ghost predicate IsRun(run: seq<State>, steps: seq<Step>) {
    && |run| == |steps| + 1
    && run[0] == Initial()
    && forall i :: 0 <= i < |steps| ==> Goes(run[i], steps[i], run[i + 1])
  }

  ghost predicate Goes(s: State, step: Step, t: State) {
    Allowed(s, step) && t == Next(s, step)
  }

  lemma {:induction false} RunInv(run: seq<State>, steps: seq<Step>, i: nat)
    requires IsRun(run, steps) && i < |run|
    ensures Inv(run[i])
  {
    hide Inv, Goes, Initial;
    if i == 0 {
      InitialInv();
    } else {
      RunInv(run, steps, i - 1);
      GoesInv(run[i - 1], steps[i - 1], run[i]);
    }
  }

  lemma GoesInv(s: State, step: Step, t: State)
    requires Inv(s) && Goes(s, step, t)
    ensures Inv(t)
  {
    hide Inv, Allowed, Next;
    InvNext(s, step);
  }

  // ---------------------------------------------------------------------------
  // What only grows
  // ---------------------------------------------------------------------------

  lemma {:induction false} LaterRun(run: seq<State>, steps: seq<Step>, i: nat, j: nat)
    requires IsRun(run, steps) && i <= j < |run|
    ensures Later(run[i], run[j])
  {
    hide Later, Goes;
    if i == j {
      LaterRefl(run[i]);
    } else {
      LaterRun(run, steps, i, j - 1);
      LaterGoes(run[i], run[j - 1], steps[j - 1], run[j]);
    }
  }

  lemma LaterRefl(s: State)
    ensures Later(s, s)
  {
  }

  lemma LaterGoes(a: State, b: State, step: Step, c: State)
    requires Later(a, b) && Goes(b, step, c)
    ensures Later(a, c)
  {
    hide Allowed, Next;
    LaterStep(b, step);
  }

  // ---------------------------------------------------------------------------
  // The step that made something true
  // ---------------------------------------------------------------------------

  /** Something false at first and true at `k` became true at some step before `k`. */
  lemma {:induction false} Flip(run: seq<State>, steps: seq<Step>, p: State -> bool, k: nat) returns (a: nat)
    requires IsRun(run, steps) && k < |run| && !p(run[0]) && p(run[k])
    ensures a < k && !p(run[a]) && p(run[a + 1]) && Goes(run[a], steps[a], run[a + 1])
  {
    hide Goes;
    if p(run[k - 1]) {
      a := Flip(run, steps, p, k - 1);
    } else {
      a := k - 1;
    }
  }
}
