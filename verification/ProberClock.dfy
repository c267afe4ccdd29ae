/** The prober loop of internal/proxy/targethealth.go in real time: how old the published result can get, and when the
    ticker drops a tick.  The first probe starts with the loop; a probe ends, and is recorded, within the timeout. */
module ProberClock {
  import opened Options
  import opened Runs

  /** `targetHealthDialTimeout`. */
  const PROBE_TIMEOUT_MS := 2_000

  /** `probing` is the instant the running probe started, `pending` a tick in the ticker's channel of capacity one. */
  datatype State = State(
    now: nat, nextTick: nat, pending: bool, probing: Option<nat>, recordedAt: Option<nat>, lost: nat)

  function Initial(interval: nat, start: nat): State {
    State(start, start + interval, false, Some(start), None, 0)
  }

  datatype Step = Tick | TakeTick | Record | Pass(ms: nat)

  predicate Enabled(s: State, step: Step) {
    match step
    case Tick => s.now == s.nextTick
    case TakeTick => s.pending && s.probing.None?
    case Record => s.probing.Some?
    case Pass(ms) =>
      && s.now + ms <= s.nextTick
      && (s.probing.Some? ==> s.now + ms <= s.probing.value + PROBE_TIMEOUT_MS)
      && (s.probing.None? ==> !s.pending)
  }

  function Apply(interval: nat, s: State, step: Step): State
    requires Enabled(s, step)
  {
    match step
    case Tick => s.(nextTick := s.now + interval, pending := true, lost := if s.pending then s.lost + 1 else s.lost)
    case TakeTick => s.(pending := false, probing := Some(s.now))
    case Record => s.(probing := None, recordedAt := Some(s.now))
    case Pass(ms) => s.(now := s.now + ms)
  }

  function Loop(interval: nat): Machine<State, Step> {
    Machine(Enabled, (s, step) => if Enabled(s, step) then Apply(interval, s, step) else s)
  }

  // ---- freshness, for every interval

  /** A running probe started within an interval of the last record; an idle loop waits for a tick within it. */
  ghost predicate Inv(interval: nat, s: State) {
    && s.now <= s.nextTick <= s.now + interval
    && (s.probing.Some? ==> s.probing.value <= s.now <= s.probing.value + PROBE_TIMEOUT_MS)
    && (s.recordedAt.Some? ==>
          && s.recordedAt.value <= s.now
          && (s.probing.Some? ==> s.probing.value <= s.recordedAt.value + interval)
          && (s.probing.None? ==>
                if s.pending then s.now <= s.recordedAt.value + interval
                else s.nextTick <= s.recordedAt.value + interval))
    && (s.probing.None? ==> s.recordedAt.Some?)
  }

  /** With probes no longer than the interval: a tick waits in the channel only when it came with the probe's end. */
  ghost predicate NoneLost(interval: nat, s: State) {
    && s.lost == 0
    && (s.probing.Some? && !s.pending ==> s.probing.value + interval <= s.nextTick)
    && (s.pending ==> s.nextTick == s.now + interval)
    && (s.pending && s.probing.Some? ==> s.now == s.probing.value + PROBE_TIMEOUT_MS)
  }

  lemma StepKeepsInv(interval: nat, s: State, step: Step)
    requires Inv(interval, s) && Enabled(s, step)
    ensures Inv(interval, Apply(interval, s, step))
    ensures PROBE_TIMEOUT_MS <= interval && interval > 0 && NoneLost(interval, s) ==>
              NoneLost(interval, Apply(interval, s, step))
  {
  }

  lemma ReachableInv(interval: nat, start: nat, s: State)
    requires Reachable(Loop(interval), Initial(interval, start), s)
    ensures Inv(interval, s)
    ensures PROBE_TIMEOUT_MS <= interval && interval > 0 ==> NoneLost(interval, s)
  {
    var inv := (s: State) =>
      Inv(interval, s) && (PROBE_TIMEOUT_MS <= interval && interval > 0 ==> NoneLost(interval, s));
    forall x, step | inv(x) && Loop(interval).enabled(x, step) ensures inv(Loop(interval).apply(x, step)) {
      StepKeepsInv(interval, x, step);
    }
    ReachableKeeps(Loop(interval), inv, Initial(interval, start), s);
  }

  /** After the first record the cached result is never older than the interval plus the probe timeout. */
  lemma ResultIsFresh(interval: nat, start: nat, s: State)
    requires Reachable(Loop(interval), Initial(interval, start), s)
    ensures s.recordedAt.Some? ==> s.now - s.recordedAt.value <= interval + 2_000
  {
    ReachableInv(interval, start, s);
  }

  /** From every state time can go on, and with it the probes: a record comes no earlier than it is made. */
  lemma TimeGoesOn(interval: nat, start: nat, s: State) returns (later: State)
    requires interval > 0 && Reachable(Loop(interval), Initial(interval, start), s)
    ensures Reachable(Loop(interval), s, later) && later.now > s.now && later.recordedAt.Some?
  {
    ReachableInv(interval, start, s);
    Stay(Loop(interval), s);
    later := s;
    if later.probing.Some? {
      later := Go(Loop(interval), s, later, Record);
    }
    if later.now == later.nextTick {
      later := Go(Loop(interval), s, later, Tick);
    }
    if later.pending {
      later := Go(Loop(interval), s, later, TakeTick);
      later := Go(Loop(interval), s, later, Record);
    }
    later := Go(Loop(interval), s, later, Pass(1));
  }

  // ---- no tick is lost, exactly when a probe fits into the interval

  ghost predicate NeverLosesTick(interval: nat, start: nat) {
    forall s :: Reachable(Loop(interval), Initial(interval, start), s) ==> s.lost == 0
  }

  /** Probes that all take the whole timeout fall behind a faster ticker until one of them meets two ticks. */
  lemma {:induction false} SlowProbesLoseTick(interval: nat, start: State, x: State) returns (s: State)
    requires 0 < interval < PROBE_TIMEOUT_MS && Reachable(Loop(interval), start, x)
    requires x.probing == Some(x.now) && !x.pending && x.lost == 0 && x.now < x.nextTick <= x.now + interval
    ensures Reachable(Loop(interval), start, s) && s.lost > 0
    decreases x.nextTick - x.now
  {
    s := Go(Loop(interval), start, x, Pass(x.nextTick - x.now));
    s := Go(Loop(interval), start, s, Tick);
    if x.nextTick + interval <= x.now + PROBE_TIMEOUT_MS {
      s := Go(Loop(interval), start, s, Pass(interval));
      s := Go(Loop(interval), start, s, Tick);
    } else {
      s := Go(Loop(interval), start, s, Pass(x.now + PROBE_TIMEOUT_MS - x.nextTick));
      s := Go(Loop(interval), start, s, Record);
      s := Go(Loop(interval), start, s, TakeTick);
      s := SlowProbesLoseTick(interval, start, s);
    }
  }

  /** The configuration's check that the interval exceeds the probe timeout is what keeps every tick, and equality
      would do. */
  lemma NoTickLostIff(interval: nat, start: nat)
    requires interval > 0
    ensures NeverLosesTick(interval, start) <==> 2_000 <= interval
  {
    if PROBE_TIMEOUT_MS <= interval {
      forall s | Reachable(Loop(interval), Initial(interval, start), s) ensures s.lost == 0 {
        ReachableInv(interval, start, s);
      }
    } else {
      Stay(Loop(interval), Initial(interval, start));
      var s := SlowProbesLoseTick(interval, Initial(interval, start), Initial(interval, start));
      assert !NeverLosesTick(interval, start);
    }
  }
}
