/** The goroutines that still have to see to it that a listener leaves the table: at most one per listener. */
module ForwardGuards {
  import opened ForwardRegistry
  import opened Runs

  ghost predicate GuardsDistinct(s: Registry) {
    forall t: nat, u: nat, m: nat ::
      t < |s.threads| && u < |s.threads| && Guards(s.threads[t], m) && Guards(s.threads[u], m) ==> t == u
  }

  /** A thread guards a listener after a step only if it did before, or the step handed the guard to it. */
  lemma GuardsComeFrom(p: Platform, s: Registry, step: Step, t: nat, m: nat)
    requires Enabled(p, s, step)
    requires t < |Apply(p, s, step).threads| && Guards(Apply(p, s, step).threads[t], m)
    ensures || (t < |s.threads| && Guards(s.threads[t], m) && (step.Act? && step.action.SpawnWatcher? ==> t != step.t))
            || (step.Act? && step.action.SpawnWatcher? && t == |s.threads| && Guards(s.threads[step.t], m))
            || (step.Act? && step.action.Register? && t == step.t && s.threads[t] == Bound(m))
  {
  }

  lemma GuardsStayDistinct(p: Platform, s: Registry, step: Step, t: nat, u: nat, m: nat)
    requires Inv(p, s) && GuardsDistinct(s) && Enabled(p, s, step)
    requires t < |Apply(p, s, step).threads| && Guards(Apply(p, s, step).threads[t], m)
    requires u < |Apply(p, s, step).threads| && Guards(Apply(p, s, step).threads[u], m)
    ensures t == u
  {
    GuardsComeFrom(p, s, step, t, m);
    GuardsComeFrom(p, s, step, u, m);
    if t < |s.threads| { assert ThreadSound(s, s.threads[t]); }
    if u < |s.threads| { assert ThreadSound(s, s.threads[u]); }
  }

  lemma StepKeepsGuardsDistinct(p: Platform, s: Registry, step: Step)
    requires Inv(p, s) && GuardsDistinct(s) && Enabled(p, s, step)
    ensures GuardsDistinct(Apply(p, s, step))
  {
    var s' := Apply(p, s, step);
    forall t: nat, u: nat, m: nat
      ensures t < |s'.threads| && u < |s'.threads| && Guards(s'.threads[t], m) && Guards(s'.threads[u], m) ==> t == u
    {
      if t < |s'.threads| && u < |s'.threads| && Guards(s'.threads[t], m) && Guards(s'.threads[u], m) {
        GuardsStayDistinct(p, s, step, t, u, m);
      }
    }
  }

  ghost predicate Guardly(p: Platform, s: Registry) {
    Inv(p, s) && GuardsDistinct(s)
  }

  lemma ReachableGuards(p: Platform, s: Registry)
    requires Reachable(Forwards(p), EMPTY, s) && !p.spuriousAccept
    ensures Guardly(p, s)
  {
    var inv := (s: Registry) => Guardly(p, s);
    forall x, step | inv(x) && Forwards(p).enabled(x, step) ensures inv(Forwards(p).apply(x, step)) {
      StepKeepsInv(p, x, step);
      StepKeepsGuardsDistinct(p, x, step);
    }
    ReachableKeeps(Forwards(p), inv, EMPTY, s);
  }
}
