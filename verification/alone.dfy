/** A handler that nobody comes between: what its own steps, one after the other, reach. */
module Alone {
  import opened Records

  /** A service's step: the table and the handler's program point before and after; None if the
      handler has returned. */
  type StepOf<!S(!new)> = (Table, S, Table, Option<S>) -> bool

  ghost predicate ReachesIn<S(!new)>(step: StepOf<S>, T0: Table, t0: S, T: Table, n: Option<S>, k: nat)
    decreases k
  {
    if k == 0 then T == T0 && n == Some(t0)
    else exists T1, t1 :: ReachesIn(step, T0, t0, T1, Some(t1), k - 1) && step(T1, t1, T, n)
  }

  ghost predicate Reaches<S(!new)>(step: StepOf<S>, T0: Table, t0: S, T: Table, n: Option<S>) {
    exists k: nat :: ReachesIn(step, T0, t0, T, n, k)
  }

  lemma Begins<S(!new)>(step: StepOf<S>, T: Table, t: S)
    ensures Reaches(step, T, t, T, Some(t))
  {
    assert ReachesIn(step, T, t, T, Some(t), 0);
  }

  lemma Goes<S(!new)>(step: StepOf<S>, T0: Table, t0: S, T1: Table, t1: S, T: Table, n: Option<S>)
    requires Reaches(step, T0, t0, T1, Some(t1)) && step(T1, t1, T, n)
    ensures Reaches(step, T0, t0, T, n)
  {
    var k: nat :| ReachesIn(step, T0, t0, T1, Some(t1), k);
    assert ReachesIn(step, T0, t0, T, n, k + 1);
  }

  lemma {:induction false} GoesOnIn<S(!new)>(
    step: StepOf<S>, T0: Table, t0: S, T1: Table, t1: S, T: Table, n: Option<S>, k: nat)
    requires Reaches(step, T0, t0, T1, Some(t1)) && ReachesIn(step, T1, t1, T, n, k)
    ensures Reaches(step, T0, t0, T, n)
    decreases k
  {
    if k > 0 {
      var T2, t2 :| ReachesIn(step, T1, t1, T2, Some(t2), k - 1) && step(T2, t2, T, n);
      GoesOnIn(step, T0, t0, T1, t1, T2, Some(t2), k - 1);
      Goes(step, T0, t0, T2, t2, T, n);
    }
  }

  lemma GoesOn<S(!new)>(step: StepOf<S>, T0: Table, t0: S, T1: Table, t1: S, T: Table, n: Option<S>)
    requires Reaches(step, T0, t0, T1, Some(t1)) && Reaches(step, T1, t1, T, n)
    ensures Reaches(step, T0, t0, T, n)
  {
    var k: nat :| ReachesIn(step, T1, t1, T, n, k);
    GoesOnIn(step, T0, t0, T1, t1, T, n, k);
  }
}
