/** `Session.Run` cannot hang once it is to end: no send blocks, no goroutine waits for one that waits for it, and the
    deferred cancel-then-wait returns. */
module ProxyTeardown {
  import opened ProxySession
  import opened Fairness
  import opened Runs

  /** In every run, a goroutine about to send an error finds room in the channel. */
  lemma SendsNeverBlock(s: State)
    requires Reachable(SESSION, INITIAL, s)
    ensures s.inbound.SendInErr? ==> Enabled(s, ByInbound(SendErr))
    ensures s.outbound.SendOutErr? ==> Enabled(s, ByOutbound(SendErr))
    ensures s.runner.Report? ==> Enabled(s, ByRunner)
  {
    ReachableInv(s);
  }

  /** When `Run` has returned its duration was recorded once, and after a successful dial the ping loop has ended and
      both sockets are closed. */
  lemma ReturnMeansTornDown(s: State)
    requires Reachable(SESSION, INITIAL, s) && s.main == RETURNED
    ensures s.observed == 1
    ensures !s.failed ==> s.ping.PingEnded? && s.wsClosed && s.tcpClosed && s.cancelled
  {
    ReachableInv(s);
  }

  /** While `Run` waits in its select, ping loop, timer and bridge are all started.  A max-duration timer that fired has
      armed the grace timer by the time its callback is over, the grace timer cancels, and so does a ping loop that
      ended; one that did not fire is stopped when `Run` has returned.  Until then timer and request may end it. */
  lemma TimersAreInPlace(s: State)
    requires Reachable(SESSION, INITIAL, s)
    ensures s.main == SELECT ==> !s.ping.NoPing? && !s.timer.Unarmed? && !s.runner.NoRunner?
    ensures s.timer.TimerDone? <==> s.grace.GracePending? || s.grace.GraceFired?
    ensures s.grace.GraceFired? || s.ping.PingEnded? ==> s.cancelled
    ensures s.main == RETURNED ==> !s.timer.Armed?
    ensures s.timer.Armed? ==> Enabled(s, ByTimer(Fire))
    ensures !s.cancelled ==> Enabled(s, ByParent)
  {
    ReachableInv(s);
  }

  // ---- a session at work

  /** Where a session is once everything is started. */
  const AT_WORK: State := INITIAL.(main := SELECT, ping := PingIdle, runner := Receive, inbound := ReadWs,
                                   outbound := ReadTcp, timer := Armed)

  lemma SessionGetsToWork()
    ensures Reachable(SESSION, INITIAL, AT_WORK)
  {
    Stay(SESSION, INITIAL);
    var s := Go(SESSION, INITIAL, INITIAL, ByMain(false));
    s := Go(SESSION, INITIAL, s, ByMain(false));
    s := Go(SESSION, INITIAL, s, ByMain(false));
    s := Go(SESSION, INITIAL, s, ByMain(false));
    s := Go(SESSION, INITIAL, s, ByMain(false));
    s := Go(SESSION, INITIAL, s, ByRunner);
    assert s == AT_WORK;
  }

  /** The steps lead from a state back to it. */
  ghost predicate Cycle(s: State, steps: seq<Step>) {
    Legal(SESSION, s, steps) && Exec(SESSION, s, steps) == s
  }

  lemma TwoSteps(s: State, a: Step, b: Step)
    requires Enabled(s, a) && Enabled(Apply(s, a), b)
    ensures Legal(SESSION, s, [a, b]) && Exec(SESSION, s, [a, b]) == Apply(Apply(s, a), b)
  {
    assert Legal(SESSION, s, []) && Exec(SESSION, s, []) == s;
    Extend(SESSION, s, [], a);
    assert [] + [a] == [a];
    Extend(SESSION, s, [a], b);
    assert [a] + [b] == [a, b];
  }

  lemma ThreeSteps(s: State, a: Step, b: Step, c: Step)
    requires Enabled(s, a) && Enabled(Apply(s, a), b) && Enabled(Apply(Apply(s, a), b), c)
    ensures Legal(SESSION, s, [a, b, c]) && Exec(SESSION, s, [a, b, c]) == Apply(Apply(Apply(s, a), b), c)
  {
    TwoSteps(s, a, b);
    Extend(SESSION, s, [a, b], c);
    assert [a, b] + [c] == [a, b, c];
  }

  /** While the connections are open a session carries messages both ways and pings, as often as need be: each of these
      leads back to where it was. */
  lemma OpenSessionCarries(s: State)
    requires Reachable(SESSION, INITIAL, s) && !s.wsClosed && !s.tcpClosed
    ensures s.inbound.ReadWs? ==> Cycle(s, [ByInbound(Read(true)), ByInbound(Write(true))])
    ensures s.outbound.ReadTcp? && s.holder.Nobody? ==>
      Cycle(s, [ByOutbound(Read(true)), ByOutbound(Lock), ByOutbound(Write(true))])
    ensures s.ping.PingIdle? && s.holder.Nobody? ==>
      Cycle(s, [ByPing(PingSeesTick), ByPing(PingLocks), ByPing(PingWrites(true))])
  {
    if s.inbound.ReadWs? {
      TwoSteps(s, ByInbound(Read(true)), ByInbound(Write(true)));
    }
    if s.outbound.ReadTcp? && s.holder.Nobody? {
      ThreeSteps(s, ByOutbound(Read(true)), ByOutbound(Lock), ByOutbound(Write(true)));
    }
    if s.ping.PingIdle? && s.holder.Nobody? {
      ThreeSteps(s, ByPing(PingSeesTick), ByPing(PingLocks), ByPing(PingWrites(true)));
    }
  }

  /** Every read and write may fail at any time, whatever the state of the connections. */
  lemma EveryCallMayFail(s: State)
    requires Reachable(SESSION, INITIAL, s)
    ensures s.inbound.ReadWs? ==> Enabled(s, ByInbound(Read(false)))
    ensures s.inbound.WriteTcp? ==> Enabled(s, ByInbound(Write(false)))
    ensures s.outbound.ReadTcp? ==> Enabled(s, ByOutbound(Read(false)))
    ensures s.outbound.WriteWs? ==> Enabled(s, ByOutbound(Write(false)))
    ensures s.ping.PingWrite? ==> Enabled(s, ByPing(PingWrites(false)))
  {
  }

  /** A dial that fails, or a deadline that cannot be set, returns with nothing started. */
  lemma FailedDialReturns()
    ensures Reachable(SESSION, INITIAL, INITIAL.(main := RETURNED, failed := true, observed := 1))
  {
    Stay(SESSION, INITIAL);
    var s := Go(SESSION, INITIAL, INITIAL, ByMain(false));
    s := Go(SESSION, INITIAL, s, ByMain(true));
    s := Go(SESSION, INITIAL, s, ByMain(false));
    assert s == INITIAL.(main := RETURNED, failed := true, observed := 1);
  }

  // ---- who can move

  datatype Process = TheMain | ThePing | TheRunner | TheInbound | TheOutbound | TheTimer | TheGrace | TheParent

  function Mover(choice: Choice<Step>): Process {
    match choice
    case Idle => TheParent
    case Take(ByMain(_)) => TheMain
    case Take(ByPing(_)) => ThePing
    case Take(ByRunner) => TheRunner
    case Take(ByInbound(_)) => TheInbound
    case Take(ByOutbound(_)) => TheOutbound
    case Take(ByTimer(_)) => TheTimer
    case Take(ByGrace) => TheGrace
    case Take(ByParent) => TheParent
  }

  function Movers(choice: nat -> Choice<Step>): nat -> Process {
    (i: nat) => Mover(choice(i))
  }

  /** Able without help from the peers: nothing here relies on a read or write on an open socket returning. */
  predicate Able(s: State, p: Process) {
    match p
    case TheMain => MainAble(s)
    case ThePing =>
      || (s.ping.PingIdle? && s.cancelled) || (s.ping.PingLock? && s.holder.Nobody?)
      || (s.ping.PingWrite? && s.wsClosed) || s.ping.PingFailed?
    case TheRunner => RunnerAble(s)
    case TheInbound =>
      || (s.inbound.ReadWs? && s.wsClosed) || (s.inbound.WriteTcp? && s.tcpClosed)
      || (s.inbound.SendInErr? && s.errs < ERR_CHAN_CAP)
    case TheOutbound =>
      || (s.outbound.ReadTcp? && s.tcpClosed) || (s.outbound.OutLock? && s.holder.Nobody?)
      || (s.outbound.WriteWs? && s.wsClosed) || (s.outbound.SendOutErr? && s.errs < ERR_CHAN_CAP)
    case TheTimer =>
      || (s.timer.TimerLock? && s.holder.Nobody?) || (s.timer.TimerWrite? && s.wsClosed) || s.timer.ArmGrace?
    case TheGrace => false
    case TheParent => false
  }

  /** A process is able only if it has a step to take. */
  lemma AbleCanMove(s: State, p: Process)
    requires Able(s, p)
    ensures exists step :: Enabled(s, step) && Mover(Take(step)) == p
  {
    var step := match p
      case TheMain => ByMain(s.main == SELECT && s.bridgeErrs == 0)
      case ThePing =>
        ByPing(match s.ping
               case PingIdle => PingSeesCancel
               case PingLock => PingLocks
               case PingWrite => PingWrites(false)
               case _ => PingCancels)
      case TheRunner => ByRunner
      case TheInbound =>
        ByInbound(match s.inbound case ReadWs => Read(false) case WriteTcp => Write(false) case _ => SendErr)
      case TheOutbound =>
        ByOutbound(match s.outbound
                   case ReadTcp => Read(false)
                   case OutLock => Lock
                   case WriteWs => Write(false)
                   case _ => SendErr)
      case _ =>
        ByTimer(match s.timer case TimerLock => TimerLocks case TimerWrite => TimerWrites case _ => TimerArmsGrace);
    assert Enabled(s, step) && Mover(Take(step)) == p;
  }

  /** The session is to end: its context is cancelled, a pump has stopped, or `Run` failed before it began. */
  predicate Ending(s: State) {
    || s.cancelled || s.failed
    || s.inbound.SendInErr? || s.inbound.InEnded? || s.outbound.SendOutErr? || s.outbound.OutEnded?
  }

  /** Every goroutine of the session that was started has ended. */
  predicate AllEnded(s: State) {
    && s.main == RETURNED
    && (s.ping.NoPing? || s.ping.PingEnded?)
    && (s.runner.NoRunner? || s.runner.RunnerEnded?)
    && (s.inbound.NoInbound? || s.inbound.InEnded?)
    && (s.outbound.NoOutbound? || s.outbound.OutEnded?)
  }

  function Helpful(s: State): Process {
    if MainAble(s) then TheMain
    else if RunnerAble(s) then TheRunner
    else if s.inbound.SendInErr? || (s.wsClosed && Able(s, TheInbound)) then TheInbound
    else if s.outbound.SendOutErr? || (s.wsClosed && Able(s, TheOutbound)) then TheOutbound
    else if s.wsClosed && Able(s, ThePing) then ThePing
    else TheTimer
  }

  /** No deadlock: until all have ended, some goroutine can move without help from outside. */
  lemma SomeoneIsAble(s: State)
    requires Inv(s) && Ending(s) && !AllEnded(s)
    ensures Able(s, Helpful(s))
  {
  }

  // ---- and moving comes to an end

  function PingWork(ping: Ping, wsClosed: bool): nat {
    match ping
    case NoPing => 6
    case PingIdle => if wsClosed then 4 else 5
    case PingLock => if wsClosed then 3 else 5
    case PingWrite => if wsClosed then 2 else 5
    case PingFailed => 1
    case PingEnded => 0
  }

  function InboundWork(inbound: Inbound, wsClosed: bool): nat {
    match inbound
    case NoInbound => 6
    case ReadWs => if wsClosed then 2 else 5
    case WriteTcp => if wsClosed then 3 else 5
    case SendInErr => 1
    case InEnded => 0
  }

  function OutboundWork(outbound: Outbound, wsClosed: bool): nat {
    match outbound
    case NoOutbound => 6
    case ReadTcp => if wsClosed then 4 else 5
    case OutLock => if wsClosed then 3 else 5
    case WriteWs => if wsClosed then 2 else 5
    case SendOutErr => 1
    case OutEnded => 0
  }

  function RunnerWork(r: Runner): nat {
    match r
    case NoRunner => 6
    case StartPumps => 5
    case Receive => 4
    case RunnerCloseWs => 3
    case RunnerCloseTcp => 2
    case Report => 1
    case RunnerEnded => 0
  }

  function TimerWork(timer: Timer): nat {
    match timer
    case Unarmed => 6
    case Armed => 5
    case TimerLock => 4
    case TimerWrite => 3
    case ArmGrace => 2
    case TimerDone => 0
    case TimerStopped => 0
  }

  function MainWork(main: nat): nat {
    if main <= RETURNED then RETURNED - main else 0
  }

  function FlagWork(pending: bool): nat {
    if pending then 1 else 0
  }

  function Work(s: State): nat {
    MainWork(s.main) + PingWork(s.ping, s.wsClosed) + InboundWork(s.inbound, s.wsClosed)
    + OutboundWork(s.outbound, s.wsClosed) + RunnerWork(s.runner) + TimerWork(s.timer)
    + FlagWork(s.grace.GracePending?) + FlagWork(!s.cancelled)
  }

  lemma ClosingLowersWork(ping: Ping, inbound: Inbound, outbound: Outbound)
    ensures PingWork(ping, true) <= PingWork(ping, false)
    ensures InboundWork(inbound, true) <= InboundWork(inbound, false)
    ensures OutboundWork(outbound, true) <= OutboundWork(outbound, false)
  {
  }

  /** A loop that still turns: a ping sent, a message or a chunk passed on. */
  predicate Carrying(s: State, step: Step) {
    && !s.wsClosed
    && match step
       case ByPing(act) => act.PingSeesTick? || act.PingLocks? || (act.PingWrites? && act.ok)
       case ByInbound(act) => (act.Read? || act.Write?) && act.ok
       case ByOutbound(act) => act.Lock? || ((act.Read? || act.Write?) && act.ok)
       case _ => false
  }

  lemma MainUsesWork(s: State, other: bool)
    requires Inv(s) && MainCan(s, other)
    ensures Work(MainMoved(s, other)) < Work(s)
  {
    ClosingLowersWork(s.ping, s.inbound, s.outbound);
  }

  lemma PingUsesWork(s: State, act: PingAct)
    requires Inv(s) && PingCan(s, act)
    ensures Work(PingMoved(s, act)) < Work(s)
            || (Carrying(s, ByPing(act)) && Work(PingMoved(s, act)) == Work(s))
  {
  }

  lemma RunnerUsesWork(s: State)
    requires Inv(s) && RunnerAble(s)
    ensures Work(RunnerMoved(s)) < Work(s)
  {
    ClosingLowersWork(s.ping, s.inbound, s.outbound);
  }

  lemma InboundUsesWork(s: State, act: PumpAct)
    requires Inv(s) && InboundCan(s, act)
    ensures Work(InboundMoved(s, act)) < Work(s)
            || (Carrying(s, ByInbound(act)) && Work(InboundMoved(s, act)) == Work(s))
  {
  }

  lemma OutboundUsesWork(s: State, act: PumpAct)
    requires Inv(s) && OutboundCan(s, act)
    ensures Work(OutboundMoved(s, act)) < Work(s)
            || (Carrying(s, ByOutbound(act)) && Work(OutboundMoved(s, act)) == Work(s))
  {
  }

  lemma TimerUsesWork(s: State, act: TimerAct)
    requires Inv(s) && TimerCan(s, act)
    ensures Work(TimerMoved(s, act)) < Work(s)
  {
  }

  lemma EndingIsStable(s: State, step: Step)
    requires Inv(s) && Ending(s) && Enabled(s, step)
    ensures Ending(Apply(s, step))
  {
  }

  /** Every step uses up work, except those of loops over sockets that are still open, and these leave it as it is. */
  lemma StepUsesWork(s: State, step: Step)
    requires Inv(s) && Ending(s) && Enabled(s, step)
    ensures Work(Apply(s, step)) < Work(s) || (Carrying(s, step) && Work(Apply(s, step)) == Work(s))
  {
    match step
    case ByMain(other) => MainUsesWork(s, other);
    case ByPing(act) => PingUsesWork(s, act);
    case ByRunner => RunnerUsesWork(s);
    case ByInbound(act) => InboundUsesWork(s, act);
    case ByOutbound(act) => OutboundUsesWork(s, act);
    case ByTimer(act) => TimerUsesWork(s, act);
    case ByGrace =>
    case ByParent =>
  }

  /** A turn of such a loop does not take the turn away from the goroutine that can end it. */
  lemma LoopsLeaveHelpful(s: State, step: Step)
    requires Inv(s) && Ending(s) && Enabled(s, step) && Carrying(s, step) && !AllEnded(s)
    ensures Helpful(Apply(s, step)) == Helpful(s) != Mover(Take(step))
  {
    SomeoneIsAble(s);
    StepKeepsInv(s, step);
    EndingIsStable(s, step);
    SomeoneIsAble(Apply(s, step));
  }

  // ---- fair runs

  ghost predicate Condemned(s: State) {
    Inv(s) && Ending(s)
  }

  lemma {:induction false} StaysCondemned(run: nat -> State, choice: nat -> Choice<Step>, i: nat, j: nat)
    requires IsRun(SESSION, run, choice) && Condemned(run(i)) && i <= j
    ensures Condemned(run(j))
    decreases j
  {
    if i < j {
      StaysCondemned(run, choice, i, j - 1);
      assert IsInstant(SESSION, run, choice, j - 1);
      if choice(j - 1).Take? {
        StepKeepsInv(run(j - 1), choice(j - 1).step);
        EndingIsStable(run(j - 1), choice(j - 1).step);
      }
    }
  }

  lemma InvAt(run: nat -> State, choice: nat -> Choice<Step>, i: nat)
    requires IsRun(SESSION, run, choice) && Reachable(SESSION, INITIAL, run(0))
    ensures Inv(run(i))
  {
    ReachableInv(run(0));
    forall x, step | Inv(x) && SESSION.enabled(x, step) ensures Inv(SESSION.apply(x, step)) {
      StepKeepsInv(x, step);
    }
    InstantKeeps(SESSION, Inv, run, choice, i);
  }

  /** Once the context is cancelled or a pump has stopped, every weakly fair run brings main, ping loop, bridge runner
      and both pumps to their end, however much traffic, however many pings and timers interfere. */
  lemma SessionEnds(run: nat -> State, choice: nat -> Choice<Step>, i: nat) returns (n: nat)
    requires IsRun(SESSION, run, choice) && Reachable(SESSION, INITIAL, run(0)) && Ending(run(i))
    requires WeaklyFair(run, Movers(choice), Able)
    ensures i <= n && AllEnded(run(n))
  {
    InvAt(run, choice, i);
    var mover := Movers(choice);
    forall j: nat | i <= j
      ensures Descends(run, mover, Able, AllEnded, Work, Helpful, j)
    {
      StaysCondemned(run, choice, i, j);
      assert IsInstant(SESSION, run, choice, j);
      if !AllEnded(run(j)) {
        SomeoneIsAble(run(j));
        if choice(j).Take? {
          StepUsesWork(run(j), choice(j).step);
          if Carrying(run(j), choice(j).step) {
            LoopsLeaveHelpful(run(j), choice(j).step);
          }
        }
      }
    }
    n := FairRunsEnd(run, mover, Able, AllEnded, Work, Helpful, i);
  }

  /** What must end a session: the grace timer, a failed ping, the end of the request, a pump whose read or write
      failed. */
  predicate EndsSession(step: Step) {
    || step.ByGrace? || step.ByParent? || step == ByPing(PingCancels)
    || step == ByInbound(Read(false)) || step == ByInbound(Write(false))
    || step == ByOutbound(Read(false)) || step == ByOutbound(Write(false))
  }

  /** Each of them does, in every weakly fair run. */
  lemma EveryCauseEnds(run: nat -> State, choice: nat -> Choice<Step>, i: nat) returns (n: nat)
    requires IsRun(SESSION, run, choice) && Reachable(SESSION, INITIAL, run(0))
    requires WeaklyFair(run, Movers(choice), Able)
    requires choice(i).Take? && EndsSession(choice(i).step)
    ensures i < n && AllEnded(run(n))
  {
    assert IsInstant(SESSION, run, choice, i);
    n := SessionEnds(run, choice, i + 1);
  }
}
