/** Whether a call of `stopTargetProber` comes back.  The prober's select may find both the cancel and a tick ready, and
    which one it takes is up to the runtime. */
module ProberStop {
  import opened Prober
  import opened Fairness
  import opened Runs

  datatype Process = Starter(t: nat) | Stopper(t: nat) | TheProber | Outside

  function Mover(choice: Choice<Step>): Process {
    match choice
    case Take(ByStart(t)) => Starter(t)
    case Take(ByStop(t)) => Stopper(t)
    case Take(ByProber(_)) => TheProber
    case _ => Outside
  }

  function Movers(choice: nat -> Choice<Step>): nat -> Process {
    (i: nat) => Mover(choice(i))
  }

  predicate Able(s: State, p: Process) {
    match p
    case Starter(t) => Enabled(s, ByStart(t))
    case Stopper(t) => Enabled(s, ByStop(t))
    case TheProber =>
      && !s.prober.Absent? && !s.prober.Ended?
      && (s.prober.Selecting? ==> s.cancelled || s.pending)
    case Outside => false
  }

  /** It is able only if it has a step to take. */
  lemma AbleCanMove(s: State, p: Process)
    requires Able(s, p)
    ensures exists step :: Enabled(s, step) && Mover(Take(step)) == p
  {
    var step := match p
      case Starter(t) => ByStart(t)
      case Stopper(t) => ByStop(t)
      case _ => ByProber(match s.prober
                         case Probing => ProbeEnds(true)
                         case Deciding(_) => if s.cancelled then Drop else Keep(false)
                         case Recording(_) => Record
                         case Publishing(_) => Publish
                         case _ => if s.cancelled then SeeCancel else SeeTick);
    assert Enabled(s, step) && Mover(Take(step)) == p;
  }

  // ---- the runtime's choice

  ghost predicate ReadyAt(run: nat -> State, j: nat, k: nat) {
    j <= k && ProberCan(run(k), SeeCancel)
  }

  /** The select finds the cancel at instant `j` or later. */
  ghost predicate ReadyFrom(run: nat -> State, j: nat) {
    exists k: nat :: ReadyAt(run, j, k)
  }

  ghost predicate TakesCancel(choice: nat -> Choice<Step>, k: nat) {
    choice(k) == Take(ByProber(SeeCancel))
  }

  /** A select that finds the cancel ready again and again takes it at last. */
  ghost predicate FairSelect(run: nat -> State, choice: nat -> Choice<Step>) {
    (forall j: nat :: ReadyFrom(run, j)) ==> exists k: nat :: TakesCancel(choice, k)
  }

  ghost predicate IsFairRun(run: nat -> State, choice: nat -> Choice<Step>) {
    && IsRun(PROBERS, run, choice) && Reachable(PROBERS, INITIAL, run(0))
    && WeaklyFair(run, Movers(choice), Able)
  }

  lemma InvAt(run: nat -> State, choice: nat -> Choice<Step>, j: nat)
    requires IsRun(PROBERS, run, choice) && Reachable(PROBERS, INITIAL, run(0))
    ensures Inv(run(j)) && IsInstant(PROBERS, run, choice, j)
  {
    ProbersKeepInv();
    ReachableInv(run(0));
    InstantKeeps(PROBERS, Inv, run, choice, j);
  }

  // ---- the stages of a stop

  lemma {:induction false} StopStays(run: nat -> State, choice: nat -> Choice<Step>, u: nat, i: nat, j: nat)
    requires IsRun(PROBERS, run, choice) && i <= j && u < |run(i).stops|
    ensures u < |run(j).stops|
    ensures run(i).stops[u].StopWait? ==> run(j).stops[u] == run(i).stops[u] || run(j).stops[u] == StopReturned(true)
    ensures run(i).stops[u].StopReturned? ==> run(j).stops[u] == run(i).stops[u]
    decreases j
  {
    if i < j {
      StopStays(run, choice, u, i, j - 1);
      assert IsInstant(PROBERS, run, choice, j - 1);
      if choice(j - 1).Take? {
        StopMovesOn(run(j - 1), choice(j - 1).step, u);
      }
    }
  }

  predicate Returned(s: State, u: nat) {
    u < |s.stops| && s.stops[u].StopReturned?
  }

  /** It waits for a prober that has not ended. */
  predicate Blocked(s: State, u: nat) {
    u < |s.stops| && s.stops[u] == StopWait(true) && !s.prober.Ended?
  }

  predicate Halted(s: State, u: nat) {
    Returned(s, u) || Blocked(s, u)
  }

  function StopRank(s: State, u: nat): nat {
    if u >= |s.stops| then 0
    else match s.stops[u]
         case StopEnter => 3
         case StopCancel(_) => 2
         case StopWait(_) => 1
         case StopReturned(_) => 0
  }

  /** A stop call goes on until it has returned or is blocked. */
  lemma StopHalts(run: nat -> State, choice: nat -> Choice<Step>, u: nat, i: nat) returns (n: nat)
    requires IsFairRun(run, choice) && u < |run(i).stops|
    ensures i <= n && Halted(run(n), u)
  {
    var mover := Movers(choice);
    var over, rank := (s: State) => Halted(s, u), (s: State) => StopRank(s, u);
    var helpful := (s: State) => Stopper(u);
    forall j: nat | i <= j ensures Descends(run, mover, Able, over, rank, helpful, j) {
      StopStays(run, choice, u, i, j);
      assert IsInstant(PROBERS, run, choice, j);
      if choice(j).Take? {
        StopMovesOn(run(j), choice(j).step, u);
      }
    }
    n := FairRunsEnd(run, mover, Able, over, rank, helpful, i);
  }

  // ---- the stages of the prober

  /** What never changes back. */
  ghost predicate After(s: State, s': State) {
    && (s.prober.Ended? ==> s'.prober.Ended?) && (!s.prober.Absent? ==> !s'.prober.Absent?)
    && (s.cancelled ==> s'.cancelled) && (s.proberDone ==> s'.proberDone)
    && (s.proberStopped && !s.proberDone ==> s'.proberStopped && !s'.proberDone)
  }

  lemma StepGoesForward(s: State, step: Step)
    requires Inv(s) && Enabled(s, step)
    ensures After(s, Apply(s, step))
  {
  }

  lemma {:induction false} RunGoesForward(run: nat -> State, choice: nat -> Choice<Step>, i: nat, j: nat)
    requires IsRun(PROBERS, run, choice) && Reachable(PROBERS, INITIAL, run(0)) && i <= j
    ensures After(run(i), run(j))
    decreases j
  {
    if i < j {
      RunGoesForward(run, choice, i, j - 1);
      InvAt(run, choice, j - 1);
      if choice(j - 1).Take? {
        StepGoesForward(run(j - 1), choice(j - 1).step);
      }
    }
  }

  function FirstSpawn(s: State, from: nat): (t: nat)
    requires from <= |s.starts|
    ensures from <= t <= |s.starts| && (t < |s.starts| ==> s.starts[t].StartSpawn?)
    ensures forall u :: from <= u < t ==> !s.starts[u].StartSpawn?
    decreases |s.starts| - from
  {
    if from == |s.starts| || s.starts[from].StartSpawn? then from else FirstSpawn(s, from + 1)
  }

  /** The start call that claimed the prober is able, and stays the one until it has created it. */
  lemma SpawnDescends(s: State, step: Step)
    requires Inv(s) && s.proberDone && s.prober.Absent? && Enabled(s, step)
    ensures Able(s, Starter(FirstSpawn(s, 0)))
    ensures || !Apply(s, step).prober.Absent?
            || (step != ByStart(FirstSpawn(s, 0)) && FirstSpawn(Apply(s, step), 0) == FirstSpawn(s, 0))
  {
    var t := FirstSpawn(s, 0);
    assert t < |s.starts|;
    if step != ByStart(t) {
      assert Apply(s, step).starts[t].StartSpawn?;
      assert forall u :: 0 <= u < t ==> !Apply(s, step).starts[u].StartSpawn?;
    }
  }

  lemma ProberIsCreated(run: nat -> State, choice: nat -> Choice<Step>, i: nat) returns (n: nat)
    requires IsFairRun(run, choice) && run(i).proberDone
    ensures i <= n && !run(n).prober.Absent?
  {
    var mover := Movers(choice);
    var over, rank := (s: State) => !s.prober.Absent?, (s: State) => if s.prober.Absent? then 1 else 0;
    var helpful := (s: State) => Starter(FirstSpawn(s, 0));
    forall j: nat | i <= j ensures Descends(run, mover, Able, over, rank, helpful, j) {
      RunGoesForward(run, choice, i, j);
      InvAt(run, choice, j);
      if run(j).prober.Absent? {
        assert FirstSpawn(run(j), 0) < |run(j).starts|;
        if choice(j).Take? {
          SpawnDescends(run(j), choice(j).step);
        }
      }
    }
    n := FairRunsEnd(run, mover, Able, over, rank, helpful, i);
  }

  function ProbeRank(pc: Pc): nat {
    match pc
    case Probing => 4
    case Deciding(_) => 3
    case Recording(_) => 2
    case Publishing(_) => 1
    case _ => 0
  }

  predicate AtSelect(s: State) {
    s.prober.Selecting? || s.prober.Ended?
  }

  lemma ProbeDescends(s: State, step: Step)
    requires Enabled(s, step) && !s.prober.Absent? && !AtSelect(s) && Inv(s)
    ensures if step.ByProber? then ProbeRank(Apply(s, step).prober) < ProbeRank(s.prober)
            else Apply(s, step).prober == s.prober
  {
  }

  /** Every probe comes to its end, and the prober back to its select. */
  lemma ProberSelects(run: nat -> State, choice: nat -> Choice<Step>, i: nat) returns (n: nat)
    requires IsFairRun(run, choice) && !run(i).prober.Absent?
    ensures i <= n && AtSelect(run(n))
  {
    var mover := Movers(choice);
    var rank, helpful := (s: State) => ProbeRank(s.prober), (s: State) => TheProber;
    forall j: nat | i <= j ensures Descends(run, mover, Able, AtSelect, rank, helpful, j) {
      RunGoesForward(run, choice, i, j);
      InvAt(run, choice, j);
      if !AtSelect(run(j)) && choice(j).Take? {
        ProbeDescends(run(j), choice(j).step);
      }
    }
    n := FairRunsEnd(run, mover, Able, AtSelect, rank, helpful, i);
  }

  lemma SelectIsReached(run: nat -> State, choice: nat -> Choice<Step>, i: nat, j: nat)
    requires IsFairRun(run, choice) && run(i).cancelled && !run(i).prober.Absent?
    requires forall k: nat :: !run(k).prober.Ended?
    ensures ReadyFrom(run, j)
  {
    var later := if i <= j then j else i;
    RunGoesForward(run, choice, i, later);
    var k := ProberSelects(run, choice, later);
    RunGoesForward(run, choice, later, k);
    assert ReadyAt(run, j, k);
  }

  /** A cancelled prober ends if the select is fair. */
  lemma CancelledProberEnds(run: nat -> State, choice: nat -> Choice<Step>, i: nat) returns (n: nat)
    requires IsFairRun(run, choice) && FairSelect(run, choice)
    requires run(i).cancelled && !run(i).prober.Absent?
    ensures i <= n && run(n).prober.Ended?
  {
    var k: nat;
    if e: nat :| run(e).prober.Ended? {
      k := e;
    } else {
      forall j: nat ensures ReadyFrom(run, j) {
        SelectIsReached(run, choice, i, j);
      }
      var c: nat :| TakesCancel(choice, c);
      assert IsInstant(PROBERS, run, choice, c);
      k := c + 1;
    }
    n := if i <= k then k else i;
    RunGoesForward(run, choice, k, n);
  }

  // ---- the result

  /** Under a fair select every stop call, the first or a later one, returns in every weakly fair run. */
  lemma StopReturns(run: nat -> State, choice: nat -> Choice<Step>, u: nat, i: nat) returns (n: nat)
    requires IsFairRun(run, choice) && FairSelect(run, choice) && u < |run(i).stops|
    ensures i <= n && Returned(run(n), u)
  {
    n := StopHalts(run, choice, u, i);
    if !Returned(run(n), u) {
      InvAt(run, choice, n);
      assert StopSound(run(n), run(n).stops[u]);
      var born := ProberIsCreated(run, choice, n);
      RunGoesForward(run, choice, n, born);
      var ended := CancelledProberEnds(run, choice, born);
      StopStays(run, choice, u, n, ended);
      var back := StopHalts(run, choice, u, ended);
      RunGoesForward(run, choice, ended, back);
      n := back;
    }
  }

  lemma OnlyCancelEnds(s: State, step: Step)
    requires Enabled(s, step) && !s.prober.Ended? && Apply(s, step).prober.Ended?
    ensures step == ByProber(SeeCancel)
  {
  }

  lemma {:induction false} EndTakesCancel(run: nat -> State, choice: nat -> Choice<Step>, i: nat)
    requires IsRun(PROBERS, run, choice) && !run(0).prober.Ended? && run(i).prober.Ended?
    ensures exists k: nat :: TakesCancel(choice, k)
  {
    if run(i - 1).prober.Ended? {
      EndTakesCancel(run, choice, i - 1);
    } else {
      assert IsInstant(PROBERS, run, choice, i - 1);
      OnlyCancelEnds(run(i - 1), choice(i - 1).step);
      assert TakesCancel(choice, i - 1);
    }
  }

  /** A prober that has ended, or can never exist, is never found at its select. */
  lemma NeverReady(run: nat -> State, choice: nat -> Choice<Step>, i: nat)
    requires IsRun(PROBERS, run, choice) && Reachable(PROBERS, INITIAL, run(0))
    requires run(i).prober.Ended? || (run(i).proberStopped && !run(i).proberDone)
    ensures !ReadyFrom(run, i)
  {
    forall k: nat | i <= k ensures !ProberCan(run(k), SeeCancel) {
      RunGoesForward(run, choice, i, k);
      InvAt(run, choice, k);
    }
  }

  /** And the fair select is exactly what it takes: in a weakly fair run, a stop call that was first to stop returns if
      and only if the select that finds the cancel again and again takes it at last. */
  lemma StopReturnsIff(run: nat -> State, choice: nat -> Choice<Step>, u: nat, i: nat)
    requires IsFairRun(run, choice) && u < |run(i).stops|
    requires run(i).stops[u].StopCancel? || run(i).stops[u].StopWait?
    ensures (exists n: nat :: i <= n && Returned(run(n), u)) <==> FairSelect(run, choice)
  {
    if FairSelect(run, choice) {
      var n := StopReturns(run, choice, u, i);
    }
    if n: nat :| i <= n && Returned(run(n), u) {
      FirstReturns(run, choice, u, i, n);
      InvAt(run, choice, n);
      assert StopSound(run(n), run(n).stops[u]);
      if run(n).proberDone && !run(0).prober.Ended? {
        EndTakesCancel(run, choice, n);
      } else {
        NeverReady(run, choice, n);
      }
    }
  }

  lemma {:induction false} FirstReturns(run: nat -> State, choice: nat -> Choice<Step>, u: nat, i: nat, j: nat)
    requires IsRun(PROBERS, run, choice) && i <= j && u < |run(i).stops|
    requires run(i).stops[u].StopCancel? || run(i).stops[u].StopWait?
    ensures u < |run(j).stops| && run(j).stops[u] != StopEnter && run(j).stops[u] != StopReturned(false)
    decreases j
  {
    if i < j {
      FirstReturns(run, choice, u, i, j - 1);
      assert IsInstant(PROBERS, run, choice, j - 1);
      if choice(j - 1).Take? {
        StopMovesOn(run(j - 1), choice(j - 1).step, u);
      }
    }
  }

  // ---- weak fairness alone does not do it

  /** A stop waits; whenever the prober comes back to its select, a tick has come in and is taken. */
  function Spin(i: nat): State {
    State([StartReturned], [StopWait(true)],
          if i % 4 <= 1 then Selecting else if i % 4 == 2 then Probing else Deciding(false),
          1, true, true, true, i % 4 == 1, false, false, false, 1 + (i + 1) / 4, 0)
  }

  function SpinChoice(i: nat): Choice<Step> {
    Take(if i % 4 == 0 then ByTicker
         else ByProber(if i % 4 == 1 then SeeTick else if i % 4 == 2 then ProbeEnds(false) else Drop))
  }

  lemma SpinIsReachable()
    ensures Reachable(PROBERS, INITIAL, Spin(0))
  {
    Stay(PROBERS, INITIAL);
    var s := Go(PROBERS, INITIAL, INITIAL, CallStart);
    s := Go(PROBERS, INITIAL, s, ByStart(0));
    s := Go(PROBERS, INITIAL, s, ByStart(0));
    s := Go(PROBERS, INITIAL, s, CallStop);
    s := Go(PROBERS, INITIAL, s, ByStop(0));
    s := Go(PROBERS, INITIAL, s, ByStop(0));
    s := Go(PROBERS, INITIAL, s, ByProber(ProbeEnds(false)));
    s := Go(PROBERS, INITIAL, s, ByProber(Drop));
    assert s == Spin(0);
  }

  lemma SpinServes(j: nat, p: Process)
    requires j % 4 != 0
    ensures Movers(SpinChoice)(j) == p || !Able(Spin(j), p)
  {
    match p
    case Starter(t) => assert t == 0 ==> Spin(j).starts[t].StartReturned?;
    case Stopper(t) => assert t == 0 ==> Spin(j).stops[t] == StopWait(true) && !Spin(j).prober.Ended?;
    case TheProber => assert Movers(SpinChoice)(j) == Mover(SpinChoice(j)) == TheProber;
    case Outside =>
  }

  /** In this weakly fair run the stop never returns. */
  lemma UnfairSelectNeverStops()
    ensures IsFairRun(Spin, SpinChoice)
    ensures forall n: nat :: !Returned(Spin(n), 0)
  {
    SpinIsReachable();
    forall i: nat ensures IsInstant(PROBERS, Spin, SpinChoice, i) {
    }
    forall i: nat, p: Process ensures EventuallyServed(Spin, Movers(SpinChoice), Able, i, p) {
      var j := if i % 4 == 0 then i + 1 else i;
      SpinServes(j, p);
      assert Served(Spin, Movers(SpinChoice), Able, i, j, p);
    }
  }
}
