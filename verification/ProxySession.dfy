/** One proxied connection of internal/proxy/session.go and bridge.go: the goroutine of `Session.Run`, the ping loop,
    the bridge runner with its two pumps, and the two timers.

    A connection that has been closed fails every read and write on it at once; before that, reads and writes may
    succeed, fail or block, and a blocked one need not return until the connection is closed. */
module ProxySession {
  import opened Runs

  const ERR_CHAN_CAP := 2
  const BRIDGE_ERR_CAP := 1

  // The goroutine of `Session.Run`, by the statement it executes next.
  const SET_DEADLINE := 0
  const DIAL := 1
  const START_PING := 2
  const ARM_TIMER := 3
  const START_RUNNER := 4
  const SELECT := 5
  const CLOSE_WS := 6       // the ctx.Done branch
  const CLOSE_TCP := 7
  const STOP_TIMER := 8     // the deferred calls, last first
  const CANCEL := 9
  const JOIN_PING := 10
  const DEFERRED_CLOSE := 11
  const OBSERVE := 12
  const RETURNED := 13

  datatype Ping = NoPing | PingIdle | PingLock | PingWrite | PingFailed | PingEnded

  datatype Runner = NoRunner | StartPumps | Receive | RunnerCloseWs | RunnerCloseTcp | Report | RunnerEnded

  datatype Inbound = NoInbound | ReadWs | WriteTcp | SendInErr | InEnded

  datatype Outbound = NoOutbound | ReadTcp | OutLock | WriteWs | SendOutErr | OutEnded

  datatype Timer = Unarmed | Armed | TimerLock | TimerWrite | ArmGrace | TimerDone | TimerStopped

  datatype Grace = NoGrace | GracePending | GraceFired

  datatype Holder = Nobody | PingHolds | OutHolds | TimerHolds

  /** `observed` counts the records of the session's duration, which the program does not read. */
  datatype State = State(
    main: nat, failed: bool, viaBridge: bool, cancelled: bool,
    ping: Ping, runner: Runner, inbound: Inbound, outbound: Outbound, timer: Timer, grace: Grace,
    holder: Holder, wsClosed: bool, tcpClosed: bool, errs: nat, bridgeErrs: nat, observed: nat)

  const INITIAL := State(SET_DEADLINE, false, false, false, NoPing, NoRunner, NoInbound, NoOutbound, Unarmed, NoGrace,
                         Nobody, false, false, 0, 0, 0)

  datatype PingAct = PingSeesCancel | PingSeesTick | PingLocks | PingWrites(ok: bool) | PingCancels

  datatype PumpAct = Read(ok: bool) | Lock | Write(ok: bool) | SendErr

  datatype TimerAct = Fire | TimerLocks | TimerWrites | TimerArmsGrace

  datatype Step =
    | ByMain(other: bool)  // `other`: the call fails, or the select takes ctx.Done
    | ByPing(ping: PingAct)
    | ByRunner
    | ByInbound(pump: PumpAct)
    | ByOutbound(pump: PumpAct)
    | ByTimer(timer: TimerAct)
    | ByGrace
    | ByParent             // the request context is cancelled

  predicate MainAble(s: State) {
    && s.main < RETURNED
    && (s.main == SELECT ==> s.cancelled || s.bridgeErrs > 0)
    && (s.main == JOIN_PING ==> s.ping.PingEnded?)
  }

  predicate MainCan(s: State, other: bool) {
    && MainAble(s)
    && (s.main == SELECT ==> if other then s.cancelled else s.bridgeErrs > 0)
    && (other ==> s.main == SET_DEADLINE || s.main == DIAL || s.main == SELECT)
  }

  predicate PingCan(s: State, act: PingAct) {
    match act
    case PingSeesCancel => s.ping.PingIdle? && s.cancelled
    case PingSeesTick => s.ping.PingIdle?
    case PingLocks => s.ping.PingLock? && s.holder.Nobody?
    case PingWrites(ok) => s.ping.PingWrite? && !(ok && s.wsClosed)
    case PingCancels => s.ping.PingFailed?
  }

  predicate RunnerAble(s: State) {
    && !s.runner.NoRunner? && !s.runner.RunnerEnded?
    && (s.runner.Receive? ==> s.errs > 0)
    && (s.runner.Report? ==> s.bridgeErrs < BRIDGE_ERR_CAP)
  }

  predicate InboundCan(s: State, act: PumpAct) {
    match act
    case Read(ok) => s.inbound.ReadWs? && !(ok && s.wsClosed)
    case Lock => false
    case Write(ok) => s.inbound.WriteTcp? && !(ok && s.tcpClosed)
    case SendErr => s.inbound.SendInErr? && s.errs < ERR_CHAN_CAP
  }

  predicate OutboundCan(s: State, act: PumpAct) {
    match act
    case Read(ok) => s.outbound.ReadTcp? && !(ok && s.tcpClosed)
    case Lock => s.outbound.OutLock? && s.holder.Nobody?
    case Write(ok) => s.outbound.WriteWs? && !(ok && s.wsClosed)
    case SendErr => s.outbound.SendOutErr? && s.errs < ERR_CHAN_CAP
  }

  predicate TimerCan(s: State, act: TimerAct) {
    match act
    case Fire => s.timer.Armed?
    case TimerLocks => s.timer.TimerLock? && s.holder.Nobody?
    case TimerWrites => s.timer.TimerWrite?
    case TimerArmsGrace => s.timer.ArmGrace?
  }

  predicate Enabled(s: State, step: Step) {
    match step
    case ByMain(other) => MainCan(s, other)
    case ByPing(act) => PingCan(s, act)
    case ByRunner => RunnerAble(s)
    case ByInbound(act) => InboundCan(s, act)
    case ByOutbound(act) => OutboundCan(s, act)
    case ByTimer(act) => TimerCan(s, act)
    case ByGrace => s.grace.GracePending?
    case ByParent => !s.cancelled
  }

  function MainMoved(s: State, other: bool): State {
    s.(main := if other && s.main < SELECT then OBSERVE
               else if s.main == SELECT && !other then STOP_TIMER
               else s.main + 1,
       failed := s.failed || (other && s.main < SELECT),
       viaBridge := s.viaBridge || (s.main == SELECT && !other),
       bridgeErrs := if s.main == SELECT && !other && s.bridgeErrs > 0 then s.bridgeErrs - 1 else s.bridgeErrs,
       ping := if s.main == START_PING then PingIdle else s.ping,
       timer := if s.main == ARM_TIMER then Armed
                else if s.main == STOP_TIMER && s.timer.Armed? then TimerStopped
                else s.timer,
       runner := if s.main == START_RUNNER then StartPumps else s.runner,
       wsClosed := s.wsClosed || s.main == CLOSE_WS,
       tcpClosed := s.tcpClosed || s.main == CLOSE_TCP || s.main == DEFERRED_CLOSE,
       cancelled := s.cancelled || s.main == CANCEL,
       observed := if s.main == OBSERVE then s.observed + 1 else s.observed)
  }

  function PingMoved(s: State, act: PingAct): State {
    s.(ping := match act {
         case PingSeesCancel => PingEnded
         case PingSeesTick => PingLock
         case PingLocks => PingWrite
         case PingWrites(ok) => if ok then PingIdle else PingFailed
         case PingCancels => PingEnded
       },
       holder := if act.PingLocks? then PingHolds else if act.PingWrites? then Nobody else s.holder,
       cancelled := s.cancelled || act.PingCancels?)
  }

  function RunnerMoved(s: State): State {
    s.(runner := match s.runner {
         case StartPumps => Receive
         case Receive => RunnerCloseWs
         case RunnerCloseWs => RunnerCloseTcp
         case RunnerCloseTcp => Report
         case _ => RunnerEnded
       },
       inbound := if s.runner.StartPumps? then ReadWs else s.inbound,
       outbound := if s.runner.StartPumps? then ReadTcp else s.outbound,
       errs := if s.runner.Receive? && s.errs > 0 then s.errs - 1 else s.errs,
       wsClosed := s.wsClosed || s.runner.RunnerCloseWs?,
       tcpClosed := s.tcpClosed || s.runner.RunnerCloseTcp?,
       bridgeErrs := if s.runner.Report? then s.bridgeErrs + 1 else s.bridgeErrs)
  }

  function InboundMoved(s: State, act: PumpAct): State {
    s.(inbound := match act {
         case Read(ok) => if ok then WriteTcp else SendInErr
         case Write(ok) => if ok then ReadWs else SendInErr
         case _ => InEnded
       },
       errs := if act.SendErr? then s.errs + 1 else s.errs)
  }

  function OutboundMoved(s: State, act: PumpAct): State {
    s.(outbound := match act {
         case Read(ok) => if ok then OutLock else SendOutErr
         case Lock => WriteWs
         case Write(ok) => if ok then ReadTcp else SendOutErr
         case SendErr => OutEnded
       },
       holder := if act.Lock? then OutHolds else if act.Write? then Nobody else s.holder,
       errs := if act.SendErr? then s.errs + 1 else s.errs)
  }

  function TimerMoved(s: State, act: TimerAct): State {
    s.(timer := match act {
         case Fire => TimerLock
         case TimerLocks => TimerWrite
         case TimerWrites => ArmGrace
         case TimerArmsGrace => TimerDone
       },
       holder := if act.TimerLocks? then TimerHolds else if act.TimerWrites? then Nobody else s.holder,
       grace := if act.TimerArmsGrace? then GracePending else s.grace)
  }

  function Apply(s: State, step: Step): State
    requires Enabled(s, step)
  {
    match step
    case ByMain(other) => MainMoved(s, other)
    case ByPing(act) => PingMoved(s, act)
    case ByRunner => RunnerMoved(s)
    case ByInbound(act) => InboundMoved(s, act)
    case ByOutbound(act) => OutboundMoved(s, act)
    case ByTimer(act) => TimerMoved(s, act)
    case ByGrace => s.(grace := GraceFired, cancelled := true)
    case ByParent => s.(cancelled := true)
  }

  const SESSION: Machine<State, Step> := Machine(Enabled, (s, step) => if Enabled(s, step) then Apply(s, step) else s)

  // ---- the invariant

  /** Nothing was started beyond what `Run` has reached. */
  ghost predicate StartsSound(s: State) {
    && s.main <= RETURNED
    && (s.failed ==> s.main >= OBSERVE)
    && s.observed == (if s.main == RETURNED then 1 else 0)
    && (s.ping.NoPing? <==> s.failed || s.main <= START_PING)
    && (s.timer.Unarmed? <==> s.failed || s.main <= ARM_TIMER)
    && (s.runner.NoRunner? <==> s.failed || s.main <= START_RUNNER)
    && (s.inbound.NoInbound? <==> s.runner.NoRunner? || s.runner.StartPumps?)
    && (s.outbound.NoOutbound? <==> s.runner.NoRunner? || s.runner.StartPumps?)
  }

  /** The write mutex belongs to the one goroutine that is writing. */
  ghost predicate LockSound(s: State) {
    && (s.holder.PingHolds? <==> s.ping.PingWrite?)
    && (s.holder.OutHolds? <==> s.outbound.WriteWs?)
    && (s.holder.TimerHolds? <==> s.timer.TimerWrite?)
  }

  predicate Received(r: Runner) {
    r.RunnerCloseWs? || r.RunnerCloseTcp? || r.Report? || r.RunnerEnded?
  }

  /** Every error sent is in the channel or was received, and there is room for those still to come. */
  ghost predicate ChannelsSound(s: State) {
    && s.errs + (if Received(s.runner) then 1 else 0)
       == (if s.inbound.InEnded? then 1 else 0) + (if s.outbound.OutEnded? then 1 else 0)
    && s.bridgeErrs + (if s.viaBridge then 1 else 0) == (if s.runner.RunnerEnded? then 1 else 0)
    && (s.viaBridge ==> s.main >= STOP_TIMER)
  }

  /** The sockets are closed in order, and by the time `Run` is past its select both are. */
  ghost predicate ClosesSound(s: State) {
    && (s.tcpClosed ==> s.wsClosed || s.failed)
    && (s.wsClosed && !s.tcpClosed ==> s.runner.RunnerCloseTcp? || s.main == CLOSE_TCP)
    && (s.runner.RunnerCloseTcp? || s.runner.Report? || s.runner.RunnerEnded? ==> s.wsClosed)
    && (s.runner.Report? || s.runner.RunnerEnded? ==> s.tcpClosed)
    && (s.main == CLOSE_TCP ==> s.wsClosed)
    && (s.main >= STOP_TIMER && !s.failed ==> s.wsClosed && s.tcpClosed)
    && (s.main > CANCEL && !s.failed ==> s.cancelled)
    && (s.main > JOIN_PING && !s.failed ==> s.ping.PingEnded?)
    && (s.ping.PingEnded? ==> s.cancelled)
    && (s.main == CLOSE_WS || s.main == CLOSE_TCP ==> s.cancelled)
  }

  /** A callback that ran has armed the grace timer, which cancels; a timer that did not fire is stopped in the end. */
  ghost predicate TimersSound(s: State) {
    && (s.timer.TimerDone? <==> !s.grace.NoGrace?)
    && (s.grace.GraceFired? ==> s.cancelled)
    && (s.timer.Armed? ==> s.main <= STOP_TIMER)
    && (s.timer.TimerStopped? ==> s.main > STOP_TIMER)
  }

  ghost predicate Inv(s: State) {
    StartsSound(s) && LockSound(s) && ChannelsSound(s) && ClosesSound(s) && TimersSound(s)
  }

  lemma MainKeepsInv(s: State, other: bool)
    requires Inv(s) && MainCan(s, other)
    ensures Inv(MainMoved(s, other))
  {
  }

  lemma PingKeepsInv(s: State, act: PingAct)
    requires Inv(s) && PingCan(s, act)
    ensures Inv(PingMoved(s, act))
  {
  }

  lemma RunnerKeepsInv(s: State)
    requires Inv(s) && RunnerAble(s)
    ensures Inv(RunnerMoved(s))
  {
  }

  lemma InboundKeepsInv(s: State, act: PumpAct)
    requires Inv(s) && InboundCan(s, act)
    ensures Inv(InboundMoved(s, act))
  {
  }

  lemma OutboundKeepsInv(s: State, act: PumpAct)
    requires Inv(s) && OutboundCan(s, act)
    ensures Inv(OutboundMoved(s, act))
  {
  }

  lemma TimerKeepsInv(s: State, act: TimerAct)
    requires Inv(s) && TimerCan(s, act)
    ensures Inv(TimerMoved(s, act))
  {
  }

  /** Every step of every goroutine keeps the invariant. */
  lemma StepKeepsInv(s: State, step: Step)
    requires Inv(s) && Enabled(s, step)
    ensures Inv(Apply(s, step))
  {
    match step
    case ByMain(other) => MainKeepsInv(s, other);
    case ByPing(act) => PingKeepsInv(s, act);
    case ByRunner => RunnerKeepsInv(s);
    case ByInbound(act) => InboundKeepsInv(s, act);
    case ByOutbound(act) => OutboundKeepsInv(s, act);
    case ByTimer(act) => TimerKeepsInv(s, act);
    case ByGrace =>
    case ByParent =>
  }

  lemma ReachableInv(s: State)
    requires Reachable(SESSION, INITIAL, s)
    ensures Inv(s)
  {
    forall x, step | Inv(x) && SESSION.enabled(x, step) ensures Inv(SESSION.apply(x, step)) {
      StepKeepsInv(x, step);
    }
    ReachableKeeps(SESSION, Inv, INITIAL, s);
  }
}
