/** Termination of infinite runs under weak fairness, used for every liveness result of the project.

    A run is a function from instants to states; `mover(i)` is the process that takes the step from
    instant `i` to instant `i + 1`.  Weak fairness: no process stays able to progress forever without moving. */
module Fairness {

  /** No process is able to progress at every instant from some point on without ever moving. */
  ghost predicate WeaklyFair<S(!new), P(!new)>(run: nat -> S, mover: nat -> P, able: (S, P) -> bool) {
    forall i: nat, p: P :: EventuallyServed(run, mover, able, i, p)
  }

  ghost predicate EventuallyServed<S(!new), P(!new)>(
    run: nat -> S, mover: nat -> P, able: (S, P) -> bool, i: nat, p: P)
  {
    exists j: nat :: Served(run, mover, able, i, j, p)
  }

  ghost predicate Served<S(!new), P(!new)>(
    run: nat -> S, mover: nat -> P, able: (S, P) -> bool, i: nat, j: nat, p: P)
  {
    i <= j && (mover(j) == p || !able(run(j), p))
  }

  /** What a system must show at one instant of a run: either the run is over, or a distinguished process
      is able to progress, and the step taken lowers the rank unless it was taken by somebody else, in which
      case the rank does not grow and the distinguished process stays the same. */
  ghost predicate Descends<S(!new), P(!new)>(
    run: nat -> S, mover: nat -> P, able: (S, P) -> bool,
    over: S -> bool, rank: S -> nat, helpful: S -> P, i: nat)
  {
    || over(run(i))
    || (&& able(run(i), helpful(run(i)))
        && (|| rank(run(i + 1)) < rank(run(i))
            || (&& rank(run(i + 1)) == rank(run(i))
                && helpful(run(i + 1)) == helpful(run(i))
                && mover(i) != helpful(run(i)))))
  }

  /** From instant `i` the rank falls, or the run is over, no later than the instant after `j`. */
  lemma {:induction false} RankFalls<S(!new), P(!new)>(
    run: nat -> S, mover: nat -> P, able: (S, P) -> bool,
    over: S -> bool, rank: S -> nat, helpful: S -> P, i: nat, j: nat) returns (k: nat)
    requires forall n: nat :: i <= n ==> Descends(run, mover, able, over, rank, helpful, n)
    requires Served(run, mover, able, i, j, helpful(run(i)))
    ensures i <= k
    ensures over(run(k)) || rank(run(k)) < rank(run(i))
    decreases j - i
  {
    assert Descends(run, mover, able, over, rank, helpful, i);
    if over(run(i)) {
      k := i;
    } else if rank(run(i + 1)) < rank(run(i)) {
      k := i + 1;
    } else {
      assert i < j;
      assert Served(run, mover, able, i + 1, j, helpful(run(i + 1)));
      k := RankFalls(run, mover, able, over, rank, helpful, i + 1, j);
    }
  }

  /** Every weakly fair run that descends at every instant is eventually over. */
  lemma {:induction false} FairRunsEnd<S(!new), P(!new)>(
    run: nat -> S, mover: nat -> P, able: (S, P) -> bool,
    over: S -> bool, rank: S -> nat, helpful: S -> P, i: nat) returns (n: nat)
    requires WeaklyFair(run, mover, able)
    requires forall m: nat :: i <= m ==> Descends(run, mover, able, over, rank, helpful, m)
    ensures i <= n && over(run(n))
    decreases rank(run(i))
  {
    var p := helpful(run(i));
    assert EventuallyServed(run, mover, able, i, p);
    var j: nat :| Served(run, mover, able, i, j, p);
    var k := RankFalls(run, mover, able, over, rank, helpful, i, j);
    if over(run(k)) {
      n := k;
    } else {
      n := FairRunsEnd(run, mover, able, over, rank, helpful, k);
    }
  }
}
