/** The target prober of internal/proxy/targethealth.go: starting it, stopping it, and what it publishes.

    Any number of goroutines call `startTargetProber` and `stopTargetProber`; each is a thread, and each critical
    section under `proberMu` is one step.  The ticker's channel holds one tick. */
module Prober {
  import opened Runs

  datatype StartPc = StartEnter | StartSpawn | StartReturned

  /** `had` is the `proberDone` the call read; `first` says that this call set `proberStopped`. */
  datatype StopPc = StopEnter | StopCancel(had: bool) | StopWait(had: bool) | StopReturned(first: bool)

  /** The prober goroutine; `ok` is the result of the probe in hand. */
  datatype Pc = Absent | Probing | Deciding(ok: bool) | Recording(ok: bool) | Publishing(ok: bool) | Selecting | Ended

  /** `finished` probes and `recorded` results are history, which the program does not read. */
  datatype State = State(
    starts: seq<StartPc>, stops: seq<StopPc>, prober: Pc, created: nat,
    proberDone: bool, proberStopped: bool, cancelled: bool, pending: bool,
    checked: bool, reachable: bool, gauge: bool, finished: nat, recorded: nat)

  const INITIAL := State([], [], Absent, 0, false, false, false, false, false, false, false, 0, 0)

  datatype ProberAct =
    | ProbeEnds(ok: bool)
    | Drop                        // ctx.Err() is Canceled
    | Keep(timedOut: bool)        // it is not: no cancel yet, or the probe's own timeout came first
    | Record
    | Publish
    | SeeCancel
    | SeeTick

  datatype Step =
    | CallStart
    | CallStop
    | ByStart(t: nat)
    | ByStop(t: nat)
    | ByProber(act: ProberAct)
    | ByTicker

  predicate ProberCan(s: State, act: ProberAct) {
    match act
    case ProbeEnds(_) => s.prober.Probing?
    case Drop => s.prober.Deciding? && s.cancelled
    case Keep(timedOut) => s.prober.Deciding? && (!s.cancelled || timedOut)
    case Record => s.prober.Recording?
    case Publish => s.prober.Publishing?
    case SeeCancel => s.prober.Selecting? && s.cancelled
    case SeeTick => s.prober.Selecting? && s.pending
  }

  predicate Enabled(s: State, step: Step) {
    match step
    case CallStart => true
    case CallStop => true
    case ByStart(t) => t < |s.starts| && !s.starts[t].StartReturned?
    case ByStop(t) =>
      t < |s.stops| && !s.stops[t].StopReturned? && (s.stops[t].StopWait? && s.stops[t].had ==> s.prober.Ended?)
    case ByProber(act) => ProberCan(s, act)
    case ByTicker => !s.prober.Absent? && !s.prober.Ended?
  }

  function StartMoved(s: State, t: nat): State
    requires t < |s.starts|
  {
    var entering := s.starts[t].StartEnter?;
    var refused := s.proberStopped || s.proberDone;
    s.(starts := s.starts[t := if entering && !refused then StartSpawn else StartReturned],
       proberDone := s.proberDone || (entering && !refused),
       prober := if entering then s.prober else Probing,
       created := if entering then s.created else s.created + 1)
  }

  function NextStop(s: State, stop: StopPc): StopPc {
    match stop
    case StopEnter => if s.proberStopped then StopReturned(false) else StopCancel(s.proberDone)
    case StopCancel(had) => StopWait(had)
    case _ => StopReturned(true)
  }

  function StopMoved(s: State, t: nat): State
    requires t < |s.stops|
  {
    s.(stops := s.stops[t := NextStop(s, s.stops[t])],
       proberStopped := s.proberStopped || s.stops[t].StopEnter?,
       cancelled := s.cancelled || s.stops[t].StopCancel?)
  }

  function ProberMoved(s: State, act: ProberAct): State {
    var ok := if s.prober.Deciding? || s.prober.Recording? || s.prober.Publishing? then s.prober.ok else false;
    s.(prober := match act {
         case ProbeEnds(result) => Deciding(result)
         case Drop => Selecting
         case Keep(_) => Recording(ok)
         case Record => Publishing(ok)
         case Publish => Selecting
         case SeeCancel => Ended
         case SeeTick => Probing
       },
       pending := s.pending && !act.SeeTick?,
       checked := s.checked || act.Record?,
       reachable := if act.Record? then ok else s.reachable,
       gauge := if act.Publish? then ok else s.gauge,
       finished := if act.ProbeEnds? then s.finished + 1 else s.finished,
       recorded := if act.Record? then s.recorded + 1 else s.recorded)
  }

  function Apply(s: State, step: Step): State
    requires Enabled(s, step)
  {
    match step
    case CallStart => s.(starts := s.starts + [StartEnter])
    case CallStop => s.(stops := s.stops + [StopEnter])
    case ByStart(t) => StartMoved(s, t)
    case ByStop(t) => StopMoved(s, t)
    case ByProber(act) => ProberMoved(s, act)
    case ByTicker => s.(pending := true)
  }

  const PROBERS: Machine<State, Step> := Machine(Enabled, (s, step) => if Enabled(s, step) then Apply(s, step) else s)

  // ---- the invariant

  ghost predicate StartsSound(s: State) {
    && s.created <= 1
    && (s.created == 0 <==> s.prober.Absent?)
    && (s.created == 1 ==> s.proberDone)
    && (forall t :: 0 <= t < |s.starts| && s.starts[t].StartSpawn? ==> s.proberDone && s.created == 0)
    && (forall t, u :: 0 <= t < u < |s.starts| ==> !(s.starts[t].StartSpawn? && s.starts[u].StartSpawn?))
    && (s.proberDone && s.created == 0 ==> SpawnPending(s))
  }

  /** A start call has claimed the prober and is about to create it. */
  ghost predicate SpawnPending(s: State) {
    exists t :: 0 <= t < |s.starts| && s.starts[t].StartSpawn?
  }

  ghost predicate StopSound(s: State, stop: StopPc) {
    match stop
    case StopEnter => true
    case StopCancel(had) => s.proberStopped && had == s.proberDone
    case StopWait(had) => s.proberStopped && had == s.proberDone && s.cancelled
    case StopReturned(first) => s.proberStopped && (first ==> s.cancelled && (s.proberDone ==> s.prober.Ended?))
  }

  ghost predicate PublishedSound(s: State) {
    && (s.checked && !s.prober.Publishing? ==> s.gauge == s.reachable)
    && (s.prober.Publishing? ==> s.checked && s.reachable == s.prober.ok)
    && (!s.checked ==> !s.gauge && !s.reachable)
    && s.recorded + InHand(s) <= s.finished
    && (!s.cancelled ==> s.recorded + InHand(s) == s.finished)
  }

  /** A result not yet recorded. */
  function InHand(s: State): nat {
    if s.prober.Deciding? || s.prober.Recording? then 1 else 0
  }

  ghost predicate Inv(s: State) {
    && StartsSound(s)
    && (forall t :: 0 <= t < |s.stops| ==> StopSound(s, s.stops[t]))
    && PublishedSound(s)
  }

  lemma StartKeepsStarts(s: State, t: nat)
    requires Inv(s) && Enabled(s, ByStart(t))
    ensures StartsSound(StartMoved(s, t))
  {
    var s' := StartMoved(s, t);
    if s'.proberDone && s'.created == 0 {
      if s.proberDone {
        var u :| 0 <= u < |s.starts| && s.starts[u].StartSpawn?;
        assert s'.starts[u].StartSpawn?;
      } else {
        assert s'.starts[t].StartSpawn?;
      }
    }
  }

  lemma StartKeepsInv(s: State, t: nat)
    requires Inv(s) && Enabled(s, ByStart(t))
    ensures Inv(StartMoved(s, t))
  {
    var s' := StartMoved(s, t);
    StartKeepsStarts(s, t);
    forall u | 0 <= u < |s'.stops|
      ensures StopSound(s', s'.stops[u])
    {
      assert StopSound(s, s.stops[u]);
    }
  }

  lemma StopKeepsStop(s: State, t: nat, u: nat)
    requires Enabled(s, ByStop(t)) && u < |s.stops| && StopSound(s, s.stops[t]) && StopSound(s, s.stops[u])
    ensures StopSound(StopMoved(s, t), StopMoved(s, t).stops[u])
  {
  }

  lemma StopKeepsInv(s: State, t: nat)
    requires Inv(s) && Enabled(s, ByStop(t))
    ensures Inv(StopMoved(s, t))
  {
    var s' := StopMoved(s, t);
    forall u | 0 <= u < |s'.stops|
      ensures StopSound(s', s'.stops[u])
    {
      StopKeepsStop(s, t, u);
    }
    assert SpawnPending(s) ==> SpawnPending(s');
  }

  lemma ProberKeepsInv(s: State, act: ProberAct)
    requires Inv(s) && ProberCan(s, act)
    ensures Inv(ProberMoved(s, act))
  {
    var s' := ProberMoved(s, act);
    forall u | 0 <= u < |s'.stops|
      ensures StopSound(s', s'.stops[u])
    {
      assert StopSound(s, s.stops[u]);
    }
  }

  lemma CallKeepsInv(s: State, step: Step)
    requires Inv(s) && Enabled(s, step) && (step.CallStart? || step.CallStop? || step.ByTicker?)
    ensures Inv(Apply(s, step))
  {
    var s' := Apply(s, step);
    if s.proberDone && s.created == 0 {
      var t :| 0 <= t < |s.starts| && s.starts[t].StartSpawn?;
      assert s'.starts[t].StartSpawn?;
    }
    forall u | 0 <= u < |s'.stops|
      ensures StopSound(s', s'.stops[u])
    {
      assert u < |s.stops| ==> StopSound(s, s.stops[u]);
    }
  }

  lemma StepKeepsInv(s: State, step: Step)
    requires Inv(s) && Enabled(s, step)
    ensures Inv(Apply(s, step))
  {
    match step
    case ByStart(t) => StartKeepsInv(s, t);
    case ByStop(t) => StopKeepsInv(s, t);
    case ByProber(act) => ProberKeepsInv(s, act);
    case _ => CallKeepsInv(s, step);
  }

  lemma ProbersKeepInv()
    ensures Keeps(PROBERS, Inv)
  {
    forall s, step | Inv(s) && PROBERS.enabled(s, step) ensures Inv(PROBERS.apply(s, step)) {
      StepKeepsInv(s, step);
    }
  }

  lemma InitialIsSound()
    ensures Inv(INITIAL)
  {
  }

  lemma ReachableInv(s: State)
    requires Reachable(PROBERS, INITIAL, s)
    ensures Inv(s)
  {
    InitialIsSound();
    ProbersKeepInv();
    ReachableKeeps(PROBERS, Inv, INITIAL, s);
  }

  // ---- what it means

  /** Over any interleaving of starts and stops at most one prober is created, the gauge agrees with the recorded
      result except while a probe is between the two writes, and a stop that was first to stop returns only when the
      prober has ended or none will ever exist. */
  lemma ProberIsOrderly(s: State)
    requires Reachable(PROBERS, INITIAL, s)
    ensures s.created <= 1
    ensures s.checked && !s.prober.Publishing? ==> s.gauge == s.reachable
    ensures forall t :: 0 <= t < |s.stops| && s.stops[t] == StopReturned(true) ==>
      s.prober.Ended? || (s.prober.Absent? && !s.proberDone)
  {
    ReachableInv(s);
    forall t | 0 <= t < |s.stops| && s.stops[t] == StopReturned(true)
      ensures s.prober.Ended? || (s.prober.Absent? && !s.proberDone)
    {
      assert StopSound(s, s.stops[t]);
    }
  }

  /** Until a stop cancels, no result is lost: every finished probe was recorded, or is about to be. */
  lemma NoResultIsLost(s: State)
    requires Reachable(PROBERS, INITIAL, s) && !s.cancelled
    ensures s.finished == s.recorded + if s.prober.Deciding? || s.prober.Recording? then 1 else 0
  {
    ReachableInv(s);
  }

  /** A stop that was first to stop has returned. */
  ghost predicate FullyStopped(s: State) {
    exists t :: 0 <= t < |s.stops| && s.stops[t] == StopReturned(true)
  }

  ghost predicate SamePublished(s: State, s': State) {
    s'.created == s.created && s'.checked == s.checked && s'.reachable == s.reachable && s'.gauge == s.gauge
  }

  lemma StepAfterStop(s: State, step: Step)
    requires Inv(s) && FullyStopped(s) && Enabled(s, step)
    ensures FullyStopped(Apply(s, step)) && SamePublished(s, Apply(s, step))
  {
    var t :| 0 <= t < |s.stops| && s.stops[t] == StopReturned(true);
    assert StopSound(s, s.stops[t]);
    assert Apply(s, step).stops[t] == StopReturned(true);
  }

  /** From then on nothing changes: no start creates a prober, and result and gauge stay what they are. */
  lemma StopIsFinal(s: State, later: State)
    requires Reachable(PROBERS, INITIAL, s) && FullyStopped(s) && Reachable(PROBERS, s, later)
    ensures SamePublished(s, later)
  {
    ReachableInv(s);
    var inv := (x: State) => Inv(x) && FullyStopped(x) && SamePublished(s, x);
    forall x, step | inv(x) && PROBERS.enabled(x, step) ensures inv(PROBERS.apply(x, step)) {
      StepKeepsInv(x, step);
      StepAfterStop(x, step);
    }
    ReachableKeeps(PROBERS, inv, s, later);
  }

  ghost predicate StoppedUnclaimed(s: State) {
    Inv(s) && s.proberStopped && !s.proberDone
  }

  lemma StepKeepsUnclaimed(s: State, step: Step)
    requires Enabled(s, step) && s.proberStopped && !s.proberDone
    ensures Apply(s, step).proberStopped && !Apply(s, step).proberDone
  {
  }

  /** Even before the first stop returns: once `proberStopped` is set without a prober, no start creates one. */
  lemma StartAfterStopCreatesNone(s: State, later: State)
    requires Reachable(PROBERS, INITIAL, s) && s.proberStopped && !s.proberDone && Reachable(PROBERS, s, later)
    ensures later.created == 0
  {
    ReachableInv(s);
    var inv := (x: State) => StoppedUnclaimed(x);
    forall x, step | inv(x) && PROBERS.enabled(x, step) ensures inv(PROBERS.apply(x, step)) {
      StepKeepsInv(x, step);
      StepKeepsUnclaimed(x, step);
    }
    ReachableKeeps(PROBERS, inv, s, later);
  }

  /** Stop call `u`, made while there is a prober, is one that waits for it. */
  ghost predicate WaitsForProber(s: State, u: nat) {
    forall later :: Reachable(PROBERS, s, later) ==> NotBackEarly(later, u)
  }

  ghost predicate NotBackEarly(s: State, u: nat) {
    u < |s.stops| && s.stops[u].StopReturned? ==> s.prober.Ended?
  }

  /** Exactly the stop call that finds `proberStopped` unset waits: for one about to enter while a prober is claimed and
      has not ended, no continuation has it return before the prober's end if and only if the flag is not set yet. */
  lemma StopWaitsIff(s: State, u: nat)
    requires Reachable(PROBERS, INITIAL, s) && u < |s.stops| && s.stops[u].StopEnter?
    requires s.proberDone && !s.prober.Ended?
    ensures !s.proberStopped <==> WaitsForProber(Apply(s, ByStop(u)), u)
  {
    ReachableInv(s);
    var entered := Apply(s, ByStop(u));
    Stay(PROBERS, entered);
    if !s.proberStopped {
      StepKeepsInv(s, ByStop(u));
      forall later | Reachable(PROBERS, entered, later) ensures NotBackEarly(later, u) {
        FirstStopWaits(entered, later, u);
      }
    } else {
      assert !NotBackEarly(entered, u);
    }
  }

  ghost predicate IsFirstStop(s: State, u: nat) {
    Inv(s) && s.proberDone && u < |s.stops| && s.stops[u] in {StopCancel(true), StopWait(true), StopReturned(true)}
  }

  /** What becomes of one stop call in a step. */
  lemma StopMovesOn(s: State, step: Step, u: nat)
    requires Enabled(s, step) && u < |s.stops|
    ensures u < |Apply(s, step).stops|
    ensures Apply(s, step).stops[u] == if step == ByStop(u) then StopMoved(s, u).stops[u] else s.stops[u]
  {
    match step
    case ByStop(t) => if t != u { OtherStopsStay(s, t, u); }
    case CallStop => assert (s.stops + [StopEnter])[u] == s.stops[u];
    case _ =>
  }

  lemma OtherStopsStay(s: State, t: nat, u: nat)
    requires t < |s.stops| && u < |s.stops| && t != u
    ensures |StopMoved(s, t).stops| == |s.stops| && StopMoved(s, t).stops[u] == s.stops[u]
  {
  }

  lemma ClaimStays(s: State, step: Step)
    requires Enabled(s, step) && s.proberDone
    ensures Apply(s, step).proberDone
  {
  }

  lemma FirstStopWaits(s: State, later: State, u: nat)
    requires IsFirstStop(s, u) && Reachable(PROBERS, s, later)
    ensures NotBackEarly(later, u)
  {
    var inv := (x: State) => IsFirstStop(x, u);
    forall x, step | inv(x) && PROBERS.enabled(x, step) ensures inv(PROBERS.apply(x, step)) {
      StepKeepsInv(x, step);
      StopMovesOn(x, step, u);
      ClaimStays(x, step);
    }
    ReachableKeeps(PROBERS, inv, s, later);
    assert StopSound(later, later.stops[u]);
  }

  /** Only the first stop waits: a second one can return while the prober is still to record and publish. */
  lemma SecondStopDoesNotWait() returns (s: State)
    ensures Reachable(PROBERS, INITIAL, s)
    ensures |s.stops| == 2 && s.stops[1] == StopReturned(false)
    ensures Enabled(s, ByProber(Record)) && !SamePublished(s, Apply(s, ByProber(Record)))
  {
    Stay(PROBERS, INITIAL);
    s := Go(PROBERS, INITIAL, INITIAL, CallStart);
    s := Go(PROBERS, INITIAL, s, ByStart(0));
    s := Go(PROBERS, INITIAL, s, ByStart(0));
    s := Go(PROBERS, INITIAL, s, ByProber(ProbeEnds(true)));
    s := Go(PROBERS, INITIAL, s, ByProber(Keep(false)));
    s := Go(PROBERS, INITIAL, s, CallStop);
    s := Go(PROBERS, INITIAL, s, ByStop(0));
    s := Go(PROBERS, INITIAL, s, CallStop);
    s := Go(PROBERS, INITIAL, s, ByStop(1));
  }
}
