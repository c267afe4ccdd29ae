/** Runs of a state machine: the vocabulary of every protocol model in the project. */
module Runs {

  /** A machine whose steps are labelled so finely that each label has one outcome.  Steps are taken only where they are
      enabled; elsewhere `apply` means nothing. */
  datatype Machine<!S, !A> = Machine(enabled: (S, A) -> bool, apply: (S, A) -> S)

  // ---- finite runs

  predicate Legal<S, A>(m: Machine<S, A>, s: S, steps: seq<A>)
    decreases |steps|
  {
    steps == [] || (m.enabled(s, steps[0]) && Legal(m, m.apply(s, steps[0]), steps[1..]))
  }

  function Exec<S, A>(m: Machine<S, A>, s: S, steps: seq<A>): S
    decreases |steps|
  {
    if steps == [] then s else Exec(m, m.apply(s, steps[0]), steps[1..])
  }

  /** Some interleaving of steps leads from `from` to `to`. */
  ghost predicate Reachable<S, A(!new)>(m: Machine<S, A>, from: S, to: S) {
    exists steps :: Legal(m, from, steps) && Exec(m, from, steps) == to
  }

  /** Every step keeps `inv`. */
  ghost predicate Keeps<S(!new), A(!new)>(m: Machine<S, A>, inv: S -> bool) {
    forall s, a :: inv(s) && m.enabled(s, a) ==> inv(m.apply(s, a))
  }

  lemma {:induction false} RunKeeps<S(!new), A(!new)>(m: Machine<S, A>, inv: S -> bool, s: S, steps: seq<A>)
    requires inv(s) && Keeps(m, inv) && Legal(m, s, steps)
    ensures inv(Exec(m, s, steps))
    decreases |steps|
  {
    if steps != [] {
      RunKeeps(m, inv, m.apply(s, steps[0]), steps[1..]);
    }
  }

  /** What every step keeps holds of everything that can be reached. */
  lemma ReachableKeeps<S(!new), A(!new)>(m: Machine<S, A>, inv: S -> bool, from: S, to: S)
    requires inv(from) && Keeps(m, inv) && Reachable(m, from, to)
    ensures inv(to)
  {
    var steps :| Legal(m, from, steps) && Exec(m, from, steps) == to;
    RunKeeps(m, inv, from, steps);
  }

  /** Every step of `m` is a step of `wider`. */
  ghost predicate Within<S(!new), A(!new)>(m: Machine<S, A>, wider: Machine<S, A>) {
    forall s, a :: m.enabled(s, a) ==> wider.enabled(s, a) && wider.apply(s, a) == m.apply(s, a)
  }

  lemma {:induction false} WiderRun<S(!new), A(!new)>(m: Machine<S, A>, wider: Machine<S, A>, s: S, steps: seq<A>)
    requires Within(m, wider) && Legal(m, s, steps)
    ensures Legal(wider, s, steps) && Exec(wider, s, steps) == Exec(m, s, steps)
    decreases |steps|
  {
    if steps != [] {
      WiderRun(m, wider, m.apply(s, steps[0]), steps[1..]);
    }
  }

  /** What a machine can reach, a wider one can. */
  lemma ReachableWithin<S(!new), A(!new)>(m: Machine<S, A>, wider: Machine<S, A>, from: S, to: S)
    requires Within(m, wider) && Reachable(m, from, to)
    ensures Reachable(wider, from, to)
  {
    var steps :| Legal(m, from, steps) && Exec(m, from, steps) == to;
    WiderRun(m, wider, from, steps);
  }

  // ---- building a particular run

  lemma Stay<S, A(!new)>(m: Machine<S, A>, s: S)
    ensures Reachable(m, s, s)
  {
    assert Legal(m, s, []) && Exec(m, s, []) == s;
  }

  lemma {:induction false} Extend<S, A>(m: Machine<S, A>, s: S, steps: seq<A>, step: A)
    requires Legal(m, s, steps) && m.enabled(Exec(m, s, steps), step)
    ensures Legal(m, s, steps + [step])
    ensures Exec(m, s, steps + [step]) == m.apply(Exec(m, s, steps), step)
    decreases |steps|
  {
    var longer := steps + [step];
    if steps == [] {
      assert longer[1..] == [];
    } else {
      Extend(m, m.apply(s, steps[0]), steps[1..], step);
      assert longer[1..] == steps[1..] + [step];
    }
  }

  /** One more step. */
  lemma Go<S, A(!new)>(m: Machine<S, A>, from: S, to: S, step: A) returns (next: S)
    requires Reachable(m, from, to) && m.enabled(to, step)
    ensures next == m.apply(to, step) && Reachable(m, from, next)
  {
    var steps :| Legal(m, from, steps) && Exec(m, from, steps) == to;
    Extend(m, from, steps, step);
    next := m.apply(to, step);
  }

  /** One run after another. */
  lemma {:induction false} RunsCompose<S, A>(m: Machine<S, A>, s: S, first: seq<A>, second: seq<A>)
    requires Legal(m, s, first) && Legal(m, Exec(m, s, first), second)
    ensures Legal(m, s, first + second) && Exec(m, s, first + second) == Exec(m, Exec(m, s, first), second)
    decreases |first|
  {
    if first == [] {
      assert first + second == second;
    } else {
      RunsCompose(m, m.apply(s, first[0]), first[1..], second);
      assert (first + second)[1..] == first[1..] + second;
    }
  }

  lemma ReachableThrough<S, A(!new)>(m: Machine<S, A>, a: S, b: S, c: S)
    requires Reachable(m, a, b) && Reachable(m, b, c)
    ensures Reachable(m, a, c)
  {
    var first :| Legal(m, a, first) && Exec(m, a, first) == b;
    var second :| Legal(m, b, second) && Exec(m, b, second) == c;
    RunsCompose(m, a, first, second);
  }

  // ---- infinite runs

  datatype Choice<A> = Idle | Take(step: A)

  /** At every instant one step is taken, or nothing happens. */
  ghost predicate IsRun<S(!new), A(!new)>(m: Machine<S, A>, run: nat -> S, choice: nat -> Choice<A>) {
    forall i: nat :: IsInstant(m, run, choice, i)
  }

  ghost predicate IsInstant<S(!new), A(!new)>(m: Machine<S, A>, run: nat -> S, choice: nat -> Choice<A>, i: nat) {
    match choice(i)
    case Idle => run(i + 1) == run(i)
    case Take(a) => m.enabled(run(i), a) && run(i + 1) == m.apply(run(i), a)
  }

  lemma {:induction false} InstantKeeps<S(!new), A(!new)>(
    m: Machine<S, A>, inv: S -> bool, run: nat -> S, choice: nat -> Choice<A>, i: nat)
    requires IsRun(m, run, choice) && inv(run(0)) && Keeps(m, inv)
    ensures inv(run(i))
  {
    if i > 0 {
      InstantKeeps(m, inv, run, choice, i - 1);
      assert IsInstant(m, run, choice, i - 1);
    }
  }
}
