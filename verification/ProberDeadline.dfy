/** How long a stop can take.  The prober loop of ProberClock with a cancel: at a select that finds something ready no
    time passes, but which ready branch it takes is up to the runtime, and a probe may use its whole timeout although it
    is cancelled. */
module ProberDeadline {
  import opened Options
  import opened Runs
  import Clock = ProberClock

  const TIMEOUT := Clock.PROBE_TIMEOUT_MS

  datatype State = State(loop: Clock.State, cancelledAt: Option<nat>, ended: bool)

  function Initial(interval: nat, start: nat): State {
    State(Clock.Initial(interval, start), None, false)
  }

  datatype Step =
    | ByLoop(step: Clock.Step)
    | Drop                      // a cancelled probe ends without a record
    | Cancel
    | SeeCancel
    | Later(ms: nat)            // time goes on after the end

  predicate Enabled(s: State, step: Step) {
    match step
    case ByLoop(x) =>
      && !s.ended && Clock.Enabled(s.loop, x)
      && (x.Pass? && s.loop.probing.None? ==> s.cancelledAt.None?)
    case Drop => !s.ended && s.loop.probing.Some? && s.cancelledAt.Some?
    case Cancel => s.cancelledAt.None?
    case SeeCancel => !s.ended && s.loop.probing.None? && s.cancelledAt.Some?
    case Later(_) => s.ended
  }

  function Apply(interval: nat, s: State, step: Step): State
    requires Enabled(s, step)
  {
    match step
    case ByLoop(x) => s.(loop := Clock.Apply(interval, s.loop, x))
    case Drop => s.(loop := s.loop.(probing := None))
    case Cancel => s.(cancelledAt := Some(s.loop.now))
    case SeeCancel => s.(ended := true)
    case Later(ms) => s.(loop := s.loop.(now := s.loop.now + ms))
  }

  function Prober(interval: nat): Machine<State, Step> {
    Machine(Enabled, (s, step) => if Enabled(s, step) then Apply(interval, s, step) else s)
  }

  // ---- the bound

  /** A probe shorter than the interval is over before the next tick, so a tick waits only for an idle loop. */
  ghost predicate TicksWait(interval: nat, c: Clock.State) {
    && c.now <= c.nextTick <= c.now + interval
    && (c.probing.Some? ==> c.probing.value <= c.now <= c.probing.value + TIMEOUT && !c.pending)
    && (c.probing.Some? ==> c.probing.value + interval <= c.nextTick)
    && (c.pending ==> c.nextTick == c.now + interval)
  }

  /** At most one probe is started after the cancel, and that at the very instant of the cancel. */
  ghost predicate CancelInTime(c: Clock.State, cancelledAt: nat) {
    && cancelledAt <= c.now
    && (c.probing.Some? ==> c.probing.value <= cancelledAt)
    && (c.probing.None? ==> c.now <= cancelledAt + TIMEOUT)
    && (c.probing.None? && (c.pending || c.now == c.nextTick) ==> c.now == cancelledAt)
  }

  ghost predicate Inv(interval: nat, s: State) {
    && (!s.ended ==> TicksWait(interval, s.loop))
    && (!s.ended && s.cancelledAt.Some? ==> CancelInTime(s.loop, s.cancelledAt.value))
  }

  lemma StepKeepsInv(interval: nat, s: State, step: Step)
    requires TIMEOUT < interval && Inv(interval, s) && Enabled(s, step)
    ensures Inv(interval, Apply(interval, s, step))
  {
  }

  /** The prober is still there more than a probe's timeout after the cancel. */
  predicate Late(s: State) {
    s.cancelledAt.Some? && !s.ended && s.loop.now > s.cancelledAt.value + TIMEOUT
  }

  ghost predicate NeverLate(interval: nat, start: nat) {
    forall s :: Reachable(Prober(interval), Initial(interval, start), s) ==> !Late(s)
  }

  lemma StopIsBounded(interval: nat, start: nat, s: State)
    requires TIMEOUT < interval && Reachable(Prober(interval), Initial(interval, start), s)
    ensures !Late(s)
  {
    var inv := (s: State) => Inv(interval, s);
    forall x, step | inv(x) && Prober(interval).enabled(x, step) ensures inv(Prober(interval).apply(x, step)) {
      StepKeepsInv(interval, x, step);
    }
    ReachableKeeps(Prober(interval), inv, Initial(interval, start), s);
  }

  ghost predicate Sound(interval: nat, s: State) {
    !s.ended ==>
      && s.loop.now <= s.loop.nextTick <= s.loop.now + interval
      && (s.loop.probing.Some? ==> s.loop.probing.value <= s.loop.now <= s.loop.probing.value + TIMEOUT)
  }

  lemma ReachableSound(interval: nat, start: nat, s: State)
    requires Reachable(Prober(interval), Initial(interval, start), s)
    ensures Sound(interval, s)
  {
    var inv := (s: State) => Sound(interval, s);
    forall x, step | inv(x) && Prober(interval).enabled(x, step) ensures inv(Prober(interval).apply(x, step)) {
    }
    ReachableKeeps(Prober(interval), inv, Initial(interval, start), s);
  }

  /** From every state time can go on; and a cancelled prober can end without letting any pass. */
  lemma TimeGoesOn(interval: nat, start: nat, s: State) returns (later: State)
    requires interval > 0 && Reachable(Prober(interval), Initial(interval, start), s)
    ensures Reachable(Prober(interval), s, later) && later.loop.now > s.loop.now
    ensures s.cancelledAt.Some? ==> later.ended && (s.ended || later.loop.now == s.loop.now + 1)
  {
    ReachableSound(interval, start, s);
    Stay(Prober(interval), s);
    later := s;
    if !s.ended {
      if later.loop.probing.Some? {
        later := Go(Prober(interval), s, later, ByLoop(Clock.Record));
      }
      if s.cancelledAt.Some? {
        later := Go(Prober(interval), s, later, SeeCancel);
      } else {
        if later.loop.now == later.loop.nextTick {
          later := Go(Prober(interval), s, later, ByLoop(Clock.Tick));
        }
        if later.loop.pending {
          later := Go(Prober(interval), s, later, ByLoop(Clock.TakeTick));
          later := Go(Prober(interval), s, later, ByLoop(Clock.Record));
        }
      }
    }
    later := Go(Prober(interval), s, later, if later.ended then Later(1) else ByLoop(Clock.Pass(1)));
  }

  // ---- and when it fails

  /** Time goes by, ticks and all, during a probe. */
  lemma {:induction false} WaitInProbe(interval: nat, start: State, x: State, until: nat) returns (s: State)
    requires interval > 0 && Reachable(Prober(interval), start, x) && !x.ended && x.loop.probing.Some?
    requires x.loop.now <= x.loop.nextTick && x.loop.now <= until <= x.loop.probing.value + TIMEOUT
    ensures Reachable(Prober(interval), start, s)
    ensures s.loop.now == until && !s.ended && s.cancelledAt == x.cancelledAt
    decreases until - x.loop.nextTick
  {
    if until <= x.loop.nextTick {
      s := Go(Prober(interval), start, x, ByLoop(Clock.Pass(until - x.loop.now)));
    } else {
      s := Go(Prober(interval), start, x, ByLoop(Clock.Pass(x.loop.nextTick - x.loop.now)));
      s := Go(Prober(interval), start, s, ByLoop(Clock.Tick));
      s := WaitInProbe(interval, start, s, until);
    }
  }

  /** Cancelled during its first probe, the prober finds a tick waiting, takes it and probes once more. */
  lemma OneMoreProbe(interval: nat, start: nat) returns (s: State)
    requires 0 < interval <= TIMEOUT
    ensures Reachable(Prober(interval), Initial(interval, start), s) && Late(s)
  {
    var first := Initial(interval, start);
    Stay(Prober(interval), first);
    s := Go(Prober(interval), first, first, Cancel);
    s := Go(Prober(interval), first, s, ByLoop(Clock.Pass(interval)));
    s := Go(Prober(interval), first, s, ByLoop(Clock.Tick));
    s := Go(Prober(interval), first, s, Drop);
    s := Go(Prober(interval), first, s, ByLoop(Clock.TakeTick));
    s := WaitInProbe(interval, first, s, start + TIMEOUT + 1);
  }

  /** The configuration's check that the interval exceeds the probe timeout bounds a stop, without any fairness: in
      every run the prober has ended by a probe's timeout after the cancel, whichever ready branch its select takes, if
      and only if that check holds. */
  lemma StopIsBoundedIff(interval: nat, start: nat)
    requires interval > 0
    ensures NeverLate(interval, start) <==> 2_000 < interval
  {
    if TIMEOUT < interval {
      forall s | Reachable(Prober(interval), Initial(interval, start), s) ensures !Late(s) {
        StopIsBounded(interval, start, s);
      }
    } else {
      var s := OneMoreProbe(interval, start);
      assert !NeverLate(interval, start);
    }
  }
}
