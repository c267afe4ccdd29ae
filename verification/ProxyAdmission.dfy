/** Admission to the proxy: `SessionManager` of internal/proxy/session.go, a compare-and-swap loop, and the slot and
    gauge bookkeeping of `handleWebSocket` in internal/proxy/server.go around it, for any number of requests. */
module ProxyAdmission {
  import opened Counting
  import opened Fairness
  import opened Runs

  const MAX_INT32 := 0x7fff_ffff
  const MIN_INT32 := -0x8000_0000

  /** The conversion int32(n): the low 32 bits, as a signed number. */
  function Int32(n: int): int {
    (n - MIN_INT32) % 0x1_0000_0000 + MIN_INT32
  }

  /** A request handler.  `since` and `version` are readings of the number of successful updates, at the start of the
      call and at the last load; `fails` counts failed swaps.  The program has none of the three. */
  datatype Handler =
    | Acquiring(fails: nat, since: nat)
    | Loaded(current: int, version: nat, fails: nat, since: nat)
    | Rejected
    | Upgrading    // slot held, before the WebSocket upgrade
    | Upgraded     // before ActiveConnections.Inc
    | Serving      // Session.Run
    | Uncounted    // after ActiveConnections.Dec, before Release
    | Done

  /** `configured` is MaxConnections as given, `cap` what the manager stores. */
  datatype State = State(configured: int, cap: int, active: int, gauge: int, handlers: seq<Handler>, updates: nat)

  function Initial(configured: int): State {
    State(configured, Int32(configured), 0, 0, [], 0)
  }

  datatype Act = Load | Swap | UpgradeOk | UpgradeFails | IncGauge | DecGauge | Release

  datatype Step = Arrive | By(t: nat, act: Act)

  predicate CanAct(h: Handler, act: Act) {
    match act
    case Load => h.Acquiring?
    case Swap => h.Loaded?
    case UpgradeOk => h.Upgrading?
    case UpgradeFails => h.Upgrading?
    case IncGauge => h.Upgraded?
    case DecGauge => h.Serving?
    case Release => h.Uncounted?
  }

  predicate Enabled(s: State, step: Step) {
    match step
    case Arrive => true
    case By(t, act) => t < |s.handlers| && CanAct(s.handlers[t], act)
  }

  function Next(s: State, h: Handler, act: Act): Handler
    requires CanAct(h, act)
  {
    match act
    case Load => if s.active >= s.cap then Rejected else Loaded(s.active, s.updates, h.fails, h.since)
    case Swap => if s.active == h.current then Upgrading else Acquiring(h.fails + 1, h.since)
    case UpgradeOk => Upgraded
    case UpgradeFails => Uncounted
    case IncGauge => Serving
    case DecGauge => Uncounted
    case Release => Done
  }

  function Apply(s: State, step: Step): State
    requires Enabled(s, step)
  {
    match step
    case Arrive => s.(handlers := s.handlers + [Acquiring(0, s.updates)])
    case By(t, act) =>
      var h := s.handlers[t];
      var swapped := act.Swap? && s.active == h.current;
      s.(handlers := s.handlers[t := Next(s, h, act)],
         active := if swapped then Int32(s.active + 1) else if act.Release? then Int32(s.active - 1) else s.active,
         updates := if swapped || act.Release? then s.updates + 1 else s.updates,
         gauge := if act.IncGauge? then s.gauge + 1 else if act.DecGauge? then s.gauge - 1 else s.gauge)
  }

  const HANDLERS: Machine<State, Step> := Machine(Enabled, (s, step) => if Enabled(s, step) then Apply(s, step) else s)

  // ---- the invariant

  predicate HoldsSlot(h: Handler) {
    h.Upgrading? || h.Upgraded? || h.Serving? || h.Uncounted?
  }

  predicate Counted(h: Handler) {
    h.Serving?
  }

  function Holders(s: State): nat { Count(s.handlers, HoldsSlot) }

  /** Failed swaps never outnumber the updates others made since the call began. */
  ghost predicate HandlerSound(s: State, h: Handler) {
    match h
    case Acquiring(fails, since) => fails + since <= s.updates
    case Loaded(current, version, fails, since) =>
      && fails + since <= version <= s.updates
      && current < s.cap
      && (version == s.updates ==> s.active == current)
    case _ => true
  }

  ghost predicate Inv(s: State) {
    && MIN_INT32 <= s.cap <= MAX_INT32
    && s.active == Holders(s)
    && (s.active == 0 || s.active <= s.cap)
    && s.gauge == Count(s.handlers, Counted)
    && (forall t :: 0 <= t < |s.handlers| ==> HandlerSound(s, s.handlers[t]))
  }

  lemma SmallInt32(n: int)
    ensures Int32(n) == n <==> MIN_INT32 <= n <= MAX_INT32
  {
  }

  /** What the conversion does: the one number in range that is congruent. */
  lemma Int32Wraps(n: int)
    ensures MIN_INT32 <= Int32(n) <= MAX_INT32 && (Int32(n) - n) % 0x1_0000_0000 == 0
  {
    var m := n - MIN_INT32;
    assert Int32(n) - n == m % 0x1_0000_0000 - m == -(0x1_0000_0000 * (m / 0x1_0000_0000));
  }

  lemma ActKeepsCounts(s: State, t: nat, act: Act)
    requires Inv(s) && Enabled(s, By(t, act))
    ensures var s' := Apply(s, By(t, act));
      && s'.active == Holders(s') && (s'.active == 0 || s'.active <= s'.cap)
      && s'.gauge == Count(s'.handlers, Counted)
  {
    var h := s.handlers[t];
    assert HandlerSound(s, h);
    CountUpdate(s.handlers, t, Next(s, h, act), HoldsSlot);
    CountUpdate(s.handlers, t, Next(s, h, act), Counted);
    SmallInt32(s.active + 1);
    SmallInt32(s.active - 1);
  }

  /** A handler's readings stay right: the counter changes only with the number of updates. */
  lemma HandlerStaysSound(s: State, s': State, h: Handler)
    requires HandlerSound(s, h) && s'.cap == s.cap && s.updates <= s'.updates
    requires s'.updates == s.updates ==> s'.active == s.active
    ensures HandlerSound(s', h)
  {
  }

  lemma ArrivalKeepsInv(s: State)
    requires Inv(s)
    ensures Inv(Apply(s, Arrive))
  {
    var s' := Apply(s, Arrive);
    CountAppend(s.handlers, Acquiring(0, s.updates), HoldsSlot);
    CountAppend(s.handlers, Acquiring(0, s.updates), Counted);
    forall u | 0 <= u < |s'.handlers| ensures HandlerSound(s', s'.handlers[u]) {
      if u < |s.handlers| {
        HandlerStaysSound(s, s', s.handlers[u]);
      }
    }
  }

  lemma MoverStaysSound(s: State, t: nat, act: Act)
    requires Enabled(s, By(t, act)) && HandlerSound(s, s.handlers[t])
    ensures HandlerSound(Apply(s, By(t, act)), Next(s, s.handlers[t], act))
  {
  }

  lemma StepKeepsInv(s: State, step: Step)
    requires Inv(s) && Enabled(s, step)
    ensures Inv(Apply(s, step))
  {
    match step {
      case Arrive => ArrivalKeepsInv(s);
      case By(t, act) =>
        var s' := Apply(s, step);
        ActKeepsCounts(s, t, act);
        forall u | 0 <= u < |s'.handlers| ensures HandlerSound(s', s'.handlers[u]) {
          if u == t {
            MoverStaysSound(s, t, act);
          } else {
            HandlerStaysSound(s, s', s.handlers[u]);
          }
        }
    }
  }

  lemma ReachableInv(configured: int, s: State)
    requires Reachable(HANDLERS, Initial(configured), s)
    ensures Inv(s) && s.cap == Int32(configured)
  {
    var inv := (s: State) => Inv(s) && s.cap == Int32(configured);
    forall x, step | inv(x) && HANDLERS.enabled(x, step) ensures inv(HANDLERS.apply(x, step)) {
      StepKeepsInv(x, step);
    }
    ReachableKeeps(HANDLERS, inv, Initial(configured), s);
  }

  // ---- what it means

  /** In every interleaving the counter is the number of slots held, within the cap, and the gauge of active
      connections is the number of requests being served and never exceeds it. */
  lemma SlotsAreBounded(configured: int, s: State)
    requires Reachable(HANDLERS, Initial(configured), s)
    ensures s.active == Holders(s) && (Holders(s) == 0 || Holders(s) <= Int32(configured))
    ensures s.gauge == Count(s.handlers, Counted) && 0 <= s.gauge <= s.active
  {
    ReachableInv(configured, s);
    CountImplies(s.handlers, Counted, HoldsSlot);
  }

  /** The cap in force is the configured one exactly for configured values in the range of int32. */
  lemma CapIsConfiguredIff(configured: int)
    ensures Initial(configured).cap == configured <==> MIN_INT32 <= configured <= MAX_INT32
  {
    SmallInt32(configured);
  }

  /** The specification: a counter of free and taken slots, changed in one atomic step. */
  datatype AtomicStep = Stutter | Claim | Refuse | Give

  ghost predicate Atomic(cap: int, taken: nat, step: AtomicStep, taken': nat) {
    match step
    case Stutter => taken' == taken
    case Claim => taken < cap && taken' == taken + 1
    case Refuse => taken >= cap && taken' == taken
    case Give => taken > 0 && taken' == taken - 1
  }

  /** Which atomic step a step of the program stands for: a call that fails is refused at its last load, a call that
      succeeds claims the slot at its swap. */
  function Abstract(s: State, step: Step): AtomicStep
    requires Enabled(s, step)
  {
    match step
    case Arrive => Stutter
    case By(t, act) =>
      if act.Load? && Next(s, s.handlers[t], act).Rejected? then Refuse
      else if act.Swap? && Next(s, s.handlers[t], act).Upgrading? then Claim
      else if act.Release? then Give
      else Stutter
  }

  /** The loop refines the atomic counter: in particular Acquire fails only at an instant when no slot is free. */
  lemma RefinesAtomicCounter(s: State, step: Step)
    requires Inv(s) && Enabled(s, step)
    ensures Atomic(s.cap, Holders(s), Abstract(s, step), Holders(Apply(s, step)))
  {
    StepKeepsInv(s, step);
    match step
    case Arrive =>
    case By(t, act) =>
      assert HandlerSound(s, s.handlers[t]);
      CountUpdate(s.handlers, t, Next(s, s.handlers[t], act), HoldsSlot);
  }

  ghost predicate AtomicRun(cap: int, taken: nat, trace: seq<AtomicStep>, taken': nat)
    decreases |trace|
  {
    if trace == [] then taken' == taken
    else exists mid: nat :: Atomic(cap, taken, trace[0], mid) && AtomicRun(cap, mid, trace[1..], taken')
  }

  function Trace(s: State, steps: seq<Step>): seq<AtomicStep>
    requires Legal(HANDLERS, s, steps)
    decreases |steps|
  {
    if steps == [] then [] else [Abstract(s, steps[0])] + Trace(Apply(s, steps[0]), steps[1..])
  }

  /** Hence every run, seen through its claims, refusals and gives, is a run of the atomic counter. */
  lemma {:induction false} RunsRefineAtomicCounter(s: State, steps: seq<Step>)
    requires Inv(s) && Legal(HANDLERS, s, steps)
    ensures AtomicRun(s.cap, Holders(s), Trace(s, steps), Holders(Exec(HANDLERS, s, steps)))
    decreases |steps|
  {
    if steps != [] {
      var s' := Apply(s, steps[0]);
      RefinesAtomicCounter(s, steps[0]);
      StepKeepsInv(s, steps[0]);
      RunsRefineAtomicCounter(s', steps[1..]);
      assert Trace(s, steps)[1..] == Trace(s', steps[1..]);
      assert Atomic(s.cap, Holders(s), Trace(s, steps)[0], Holders(s'));
    }
  }

  /** A caller retries no more often than others succeed: its failed swaps are at most the updates made since its call
      began, none of which is its own. */
  lemma RetriesAreBounded(configured: int, s: State, t: nat)
    requires Reachable(HANDLERS, Initial(configured), s) && t < |s.handlers|
    requires s.handlers[t].Acquiring? || s.handlers[t].Loaded?
    ensures s.handlers[t].fails <= s.updates - s.handlers[t].since
  {
    ReachableInv(configured, s);
    assert HandlerSound(s, s.handlers[t]);
  }

  /** A request can be served whenever there is a slot at all. */
  lemma RequestIsServed(configured: int) returns (s: State)
    requires Int32(configured) > 0
    ensures Reachable(HANDLERS, Initial(configured), s)
    ensures s.handlers == [Serving] && s.active == 1 && s.gauge == 1
  {
    var start := Initial(configured);
    Stay(HANDLERS, start);
    s := Go(HANDLERS, start, start, Arrive);
    s := Go(HANDLERS, start, s, By(0, Load));
    s := Go(HANDLERS, start, s, By(0, Swap));
    s := Go(HANDLERS, start, s, By(0, UpgradeOk));
    s := Go(HANDLERS, start, s, By(0, IncGauge));
  }

  // ---- and every slot is given back

  function Mover(choice: Choice<Step>): int {
    if choice.Take? && choice.step.By? then choice.step.t else -1
  }

  /** A handler is not waiting for another one; upgrades and sessions come to their end. */
  predicate Able(s: State, t: int) {
    0 <= t < |s.handlers| && !s.handlers[t].Rejected? && !s.handlers[t].Done?
  }

  lemma AbleCanMove(s: State, t: nat)
    requires Able(s, t)
    ensures exists act :: Enabled(s, By(t, act))
  {
    var act := match s.handlers[t]
      case Acquiring(_, _) => Load
      case Loaded(_, _, _, _) => Swap
      case Upgrading => UpgradeFails
      case Upgraded => IncGauge
      case Serving => DecGauge
      case _ => Release;
    assert Enabled(s, By(t, act));
  }

  function Left(h: Handler): nat {
    match h
    case Upgrading => 4
    case Upgraded => 3
    case Serving => 2
    case Uncounted => 1
    case _ => 0
  }

  lemma HolderStep(s: State, step: Step, t: nat)
    requires Enabled(s, step) && t < |s.handlers| && (HoldsSlot(s.handlers[t]) || s.handlers[t].Done?)
    ensures var h := Apply(s, step).handlers[t];
      && (HoldsSlot(h) || h.Done?)
      && (if step.By? && step.t == t then Left(h) < Left(s.handlers[t]) else h == s.handlers[t])
  {
  }

  lemma {:induction false} StaysHolder(run: nat -> State, choice: nat -> Choice<Step>, i: nat, j: nat, t: nat)
    requires IsRun(HANDLERS, run, choice) && i <= j
    requires t < |run(i).handlers| && (HoldsSlot(run(i).handlers[t]) || run(i).handlers[t].Done?)
    ensures t < |run(j).handlers| && (HoldsSlot(run(j).handlers[t]) || run(j).handlers[t].Done?)
    decreases j
  {
    if i < j {
      StaysHolder(run, choice, i, j - 1, t);
      assert IsInstant(HANDLERS, run, choice, j - 1);
      if choice(j - 1).Take? {
        HolderStep(run(j - 1), choice(j - 1).step, t);
      }
    }
  }

  /** A slot once taken is given back in every weakly fair run, on the exit of a failed upgrade and of a session. */
  lemma SlotIsGivenBack(run: nat -> State, choice: nat -> Choice<Step>, i: nat, t: nat) returns (n: nat)
    requires IsRun(HANDLERS, run, choice) && WeaklyFair(run, i => Mover(choice(i)), Able)
    requires t < |run(i).handlers| && HoldsSlot(run(i).handlers[t])
    ensures i <= n && t < |run(n).handlers| && run(n).handlers[t].Done?
  {
    var mover := (i: nat) => Mover(choice(i));
    var over := (s: State) => t < |s.handlers| && s.handlers[t].Done?;
    var rank := (s: State) => if t < |s.handlers| then Left(s.handlers[t]) else 0;
    var helpful := (s: State) => t as int;
    forall j: nat | i <= j ensures Descends(run, mover, Able, over, rank, helpful, j) {
      StaysHolder(run, choice, i, j, t);
      assert IsInstant(HANDLERS, run, choice, j);
      if choice(j).Take? {
        HolderStep(run(j), choice(j).step, t);
      }
    }
    n := FairRunsEnd(run, mover, Able, over, rank, helpful, i);
  }

  // ---- the manager in its own form

  /** What the load after `i` failed swaps finds. */
  function Found(initial: int, others: seq<int>, i: nat): int
    requires i <= |others|
  {
    if i == 0 then initial else others[i - 1]
  }

  /** The i-th load found a free slot, and somebody's update came before the swap. */
  predicate Overtaken(initial: int, others: seq<int>, i: nat, cap: int)
    requires i < |others|
  {
    Found(initial, others, i) < cap && others[i] != Found(initial, others, i)
  }

  /** A step of the one handler in view, or an update of the counter by somebody else. */
  datatype Move = Own(act: Act) | Other(active: int)

  const DISTURBED: Machine<State, Move> := Machine(
    (s: State, move: Move) => move.Own? ==> Enabled(s, By(0, move.act)),
    (s: State, move: Move) =>
      if move.Other? then s.(active := move.active, updates := s.updates + 1)
      else if Enabled(s, By(0, move.act)) then Apply(s, By(0, move.act)) else s)

  /** The manager with one handler at it. */
  function With(cap: int, active: int, h: Handler, updates: nat): State {
    State(cap, cap, active, 0, [h], updates)
  }

  /** One turn of the loop that fails to swap. */
  lemma RetryRun(start: State, cap: int, active: int, fails: nat, updates: nat, other: int)
    requires Reachable(DISTURBED, start, With(cap, active, Acquiring(fails, 0), updates))
    requires active < cap && other != active
    ensures Reachable(DISTURBED, start, With(cap, other, Acquiring(fails + 1, 0), updates + 1))
  {
    var s := Go(DISTURBED, start, With(cap, active, Acquiring(fails, 0), updates), Own(Load));
    s := Go(DISTURBED, start, s, Other(other));
    s := Go(DISTURBED, start, s, Own(Swap));
    assert s.handlers == [Acquiring(fails + 1, 0)];
  }

  /** The last turn: refused at the load, or swapped, others having left the counter as it was. */
  lemma LastRun(start: State, cap: int, active: int, fails: nat, updates: nat)
    requires Reachable(DISTURBED, start, With(cap, active, Acquiring(fails, 0), updates))
    requires cap <= MAX_INT32 && 0 <= active
    ensures if active >= cap then Reachable(DISTURBED, start, With(cap, active, Rejected, updates))
            else Reachable(DISTURBED, start, With(cap, active + 1, Upgrading, updates + 1))
  {
    var s := Go(DISTURBED, start, With(cap, active, Acquiring(fails, 0), updates), Own(Load));
    if active >= cap {
      assert s.handlers == [Rejected];
    } else {
      s := Go(DISTURBED, start, s, Own(Swap));
      SmallInt32(active + 1);
      assert s.handlers == [Upgrading];
    }
  }

  lemma ReleaseRun(cap: int, active: int)
    requires 0 <= active <= MAX_INT32
    ensures Reachable(DISTURBED, With(cap, active, Uncounted, 0), With(cap, active - 1, Done, 1))
  {
    var start := With(cap, active, Uncounted, 0);
    Stay(DISTURBED, start);
    var s := Go(DISTURBED, start, start, Own(Release));
    SmallInt32(active - 1);
    assert s.handlers == [Done];
  }

  class SessionManager {
    const maxConnections: int
    var active: int

    ghost predicate Valid()
      reads this
    {
      MIN_INT32 <= maxConnections <= MAX_INT32 && 0 <= active && (active == 0 || active <= maxConnections)
    }

    constructor (configured: int)
      ensures Valid() && active == 0 && maxConnections == Int32(configured)
    {
      maxConnections := Int32(configured);
      active := 0;
    }

    /** `others[i]` is the value other goroutines leave in the counter between the i-th load and its swap.  A slot is
        taken, or refused, at the value of the last load, and every earlier load was overtaken by somebody's update. */
    method Acquire(others: seq<int>) returns (ok: bool, failedSwaps: nat)
      requires Valid()
      requires forall i :: 0 <= i < |others| ==> 0 <= others[i] && (others[i] == 0 || others[i] <= maxConnections)
      modifies this`active
      ensures Valid()
      ensures failedSwaps <= |others|
      ensures forall i :: 0 <= i < failedSwaps ==> Overtaken(old(active), others, i, maxConnections)
      ensures var current := Found(old(active), others, failedSwaps);
        && (ok <==> current < maxConnections)
        && active == (if ok then current + 1 else current)
        && (ok && failedSwaps < |others| ==> others[failedSwaps] == current)
      ensures Reachable(DISTURBED, With(maxConnections, old(active), Acquiring(0, 0), 0),
                        With(maxConnections, active, if ok then Upgrading else Rejected,
                             failedSwaps + if ok then 1 else 0))
    {
      failedSwaps := 0;
      ghost var start := With(maxConnections, active, Acquiring(0, 0), 0);
      Stay(DISTURBED, start);
      while true
        invariant Valid() && failedSwaps <= |others|
        invariant Reachable(DISTURBED, start, With(maxConnections, active, Acquiring(failedSwaps, 0), failedSwaps))
        invariant active == Found(old(active), others, failedSwaps)
        invariant forall i :: 0 <= i < failedSwaps ==> Overtaken(old(active), others, i, maxConnections)
        decreases |others| - failedSwaps
      {
        var current := active;
        if current >= maxConnections {
          LastRun(start, maxConnections, current, failedSwaps, failedSwaps);
          return false, failedSwaps;
        }
        if failedSwaps < |others| {
          active := others[failedSwaps];
        }
        if active == current {
          LastRun(start, maxConnections, current, failedSwaps, failedSwaps);
          SmallInt32(current + 1);
          active := Int32(current + 1);
          return true, failedSwaps;
        }
        RetryRun(start, maxConnections, current, failedSwaps, failedSwaps, active);
        failedSwaps := failedSwaps + 1;
      }
    }

    method Release()
      requires Valid()
      modifies this`active
      ensures active == old(active) - 1
      ensures Reachable(DISTURBED, With(maxConnections, old(active), Uncounted, 0),
                        With(maxConnections, active, Done, 1))
      ensures old(active) > 0 ==> Valid()
    {
      ReleaseRun(maxConnections, active);
      SmallInt32(active - 1);
      active := Int32(active - 1);
    }
  }
}
