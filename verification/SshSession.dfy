/** One shell or exec session of internal/sshserver/server.go: the goroutine that runs it, the watcher that hangs up
    its processes when the client goes away, and the goroutine that resizes its terminal.

    `cmd.Wait` is two steps here, because it is two: the kernel reaps the child, then, on the path without a
    terminal, the output copies are drained; only afterwards is the `reaped` flag set under the mutex. */
module SshSession {
  import opened Runs

  const KILL_GRACE_MS := 5000

  datatype Signal = SigHup | SigKill

  datatype Child = NoChild | Running | Zombie | Reaped

  // The goroutine of `handleSession`, by the statement it executes next.
  const STARTING := 0  // pty.Start, or StdinPipe and Start
  const WATCH_START := 1  // terminateOnDisconnect
  const FIRST_RESIZE := 2  // setWinsize
  const RESIZE_START := 3  // watchWindowSize
  const COPYING := 4  // io.Copy(session, f)
  const RESIZE_STOP := 5  // close(stopResize)
  const RESIZE_JOIN := 6  // <-resizeDone
  const PTY_CLOSE := 7  // f.Close
  const REAPING := 8  // cmd.Wait: wait4
  const DRAINING := 9  // cmd.Wait: the copying goroutines
  const FLAG_LOCK := 10  // sc.mu.Lock
  const FLAG_SET := 11  // sc.reaped = true; sc.mu.Unlock
  const REPORTING := 12  // session.Exit
  const WATCH_STOP := 13  // close(done)
  const WATCH_JOIN := 14  // <-finished
  const RELEASING := 15  // releaseSession
  const RETURNED := 16

  datatype Watcher =
    | Unborn
    | FirstSelect
    | HupLock
    | HupSend
    | SecondSelect(elapsed: nat)
    | KillLock(elapsed: nat)
    | KillSend(elapsed: nat)
    | Gone

  datatype Resizer = NotStarted | Selecting | Resizing | Ended

  datatype Mutex = Free | OfMain | OfWatcher

  /** A signal as it was sent, with the moment it was sent at; `waited` is the time since the hang-up. */
  datatype Sent = Sent(signal: Signal, waited: nat, flag: bool, child: Child, main: nat)

  /** `arrived` window changes, `resizes` of the terminal and whether the exit status was `reported` are history, which
      the program does not read. */
  datatype State = State(
    pty: bool, main: nat, watcher: Watcher, resizer: Resizer,
    child: Child, outputOpen: bool, connected: bool, windows: nat, windowsClosed: bool,
    done: bool, stop: bool, reaped: bool, mu: Mutex,
    ptyOpen: bool, resizedClosed: bool, slot: bool, sent: seq<Sent>,
    arrived: nat, resizes: nat, reported: bool)

  /** A session that has just claimed its slot. */
  function Initial(pty: bool): State {
    State(pty, STARTING, Unborn, NotStarted, NoChild, false, true, 0, false,
          false, false, false, Free, false, false, true, [], 0, 0, false)
  }

  /** A step, by who takes it: the main goroutine, the watcher, the resizer, the kernel, the client or time. */
  datatype Step =
    | ByMain(fails: bool)
    | ByWatcher(watch: WatcherAct)
    | ByResizer(resize: ResizerAct)
    | ByKernel(exit: bool)
    | ByClient(client: ClientAct)
    | ByClock

  datatype WatcherAct = SeeDone | SeeDisconnect | SeeTimer | LockMutex | Send

  datatype ResizerAct = SeeStop | TakeWindow | SeeWindowsClosed | SetSize

  datatype ClientAct = Disconnect | WindowArrives | WindowsClose

  predicate MainAble(s: State) {
    && s.main < RETURNED
    && (s.main == COPYING ==> !s.outputOpen)
    && (s.main == RESIZE_JOIN ==> s.resizer.Ended?)
    && (s.main == REAPING ==> s.child.Zombie?)
    && (s.main == DRAINING ==> s.pty || !s.outputOpen)
    && (s.main == FLAG_LOCK ==> s.mu.Free?)
    && (s.main == WATCH_JOIN ==> s.watcher.Gone?)
  }

  predicate WatcherCan(s: State, act: WatcherAct) {
    match act
    case SeeDone => (s.watcher.FirstSelect? || s.watcher.SecondSelect?) && s.done
    case SeeDisconnect => s.watcher.FirstSelect? && !s.connected
    case SeeTimer => s.watcher.SecondSelect? && s.watcher.elapsed >= KILL_GRACE_MS
    case LockMutex => (s.watcher.HupLock? || s.watcher.KillLock?) && s.mu.Free?
    case Send => s.watcher.HupSend? || s.watcher.KillSend?
  }

  predicate ResizerCan(s: State, act: ResizerAct) {
    match act
    case SeeStop => s.resizer.Selecting? && s.stop
    case TakeWindow => s.resizer.Selecting? && s.windows > 0
    case SeeWindowsClosed => s.resizer.Selecting? && s.windows == 0 && s.windowsClosed
    case SetSize => s.resizer.Resizing?
  }

  /** A copy of output to the client may also fail, and so end, at any time. */
  predicate Enabled(s: State, step: Step) {
    match step
    case ByMain(fails) => if fails then s.main == STARTING else MainAble(s) || s.main == COPYING || s.main == DRAINING
    case ByWatcher(act) => WatcherCan(s, act)
    case ByResizer(act) => ResizerCan(s, act)
    case ByKernel(exit) => if exit then s.child.Running? else s.outputOpen
    case ByClient(act) =>
      if act.WindowsClose? then !s.windowsClosed else s.connected && !(act.WindowArrives? && s.windowsClosed)
    case ByClock => true
  }

  /** The statement of the main goroutine, and the next one: a session without a terminal goes straight to Wait. */
  function Advanced(s: State): State {
    s.(main := if s.main == WATCH_START && !s.pty then REAPING else s.main + 1,
       child := if s.main == STARTING then Running else if s.main == REAPING then Reaped else s.child,
       outputOpen := s.outputOpen || s.main == STARTING,
       ptyOpen := if s.main == STARTING then s.pty else s.ptyOpen && s.main != PTY_CLOSE,
       watcher := if s.main == WATCH_START then FirstSelect else s.watcher,
       resizedClosed := s.resizedClosed || (s.main == FIRST_RESIZE && !s.ptyOpen),
       resizer := if s.main == RESIZE_START then Selecting else s.resizer,
       stop := s.stop || s.main == RESIZE_STOP,
       mu := if s.main == FLAG_LOCK then OfMain else if s.main == FLAG_SET then Free else s.mu,
       reaped := s.reaped || s.main == FLAG_SET,
       done := s.done || s.main == WATCH_STOP,
       slot := s.slot && s.main != RELEASING,
       resizes := if s.main == FIRST_RESIZE then s.resizes + 1 else s.resizes,
       reported := s.reported || s.main == REPORTING)
  }

  /** What `signalGroup` adds to the signals sent: nothing once the flag is set or without a process. */
  function Signalled(s: State, signal: Signal, waited: nat): seq<Sent> {
    if s.reaped || s.child.NoChild? then s.sent
    else s.sent + [Sent(signal, waited, s.reaped, s.child, s.main)]
  }

  function Watched(s: State, act: WatcherAct): State {
    var hangUp := s.watcher.HupLock? || s.watcher.HupSend?;
    var timed := s.watcher.SecondSelect? || s.watcher.KillLock? || s.watcher.KillSend?;
    var elapsed := if timed then s.watcher.elapsed else 0;
    s.(watcher :=
         match act {
           case SeeDone => Gone
           case SeeDisconnect => HupLock
           case SeeTimer => KillLock(elapsed)
           case LockMutex => if hangUp then HupSend else KillSend(elapsed)
           case Send => if hangUp then SecondSelect(0) else Gone
         },
       mu := if act.LockMutex? then OfWatcher else if act.Send? then Free else s.mu,
       sent := if !act.Send? then s.sent
               else if hangUp then Signalled(s, SigHup, 0)
               else Signalled(s, SigKill, elapsed))
  }

  function Resized(s: State, act: ResizerAct): State {
    s.(resizer := match act { case TakeWindow => Resizing case SetSize => Selecting case _ => Ended },
       windows := if act.TakeWindow? && s.windows > 0 then s.windows - 1 else s.windows,
       resizedClosed := s.resizedClosed || (act.SetSize? && !s.ptyOpen),
       resizes := if act.SetSize? then s.resizes + 1 else s.resizes)
  }

  function Apply(s: State, step: Step): State
    requires Enabled(s, step)
  {
    match step
    case ByMain(fails) => if fails then s.(main := RELEASING, reported := true) else Advanced(s)
    case ByWatcher(act) => Watched(s, act)
    case ByResizer(act) => Resized(s, act)
    case ByKernel(exit) => s.(child := if exit then Zombie else s.child, outputOpen := s.outputOpen && exit)
    case ByClient(act) =>
      s.(connected := s.connected && !act.Disconnect?,
         windows := if act.WindowArrives? then s.windows + 1 else s.windows,
         arrived := if act.WindowArrives? then s.arrived + 1 else s.arrived,
         windowsClosed := s.windowsClosed || act.WindowsClose?)
    case ByClock =>
      if s.watcher.SecondSelect? && s.watcher.elapsed < KILL_GRACE_MS
      then s.(watcher := SecondSelect(s.watcher.elapsed + 1)) else s
  }

  const SESSION: Machine<State, Step> := Machine(Enabled, (s, step) => if Enabled(s, step) then Apply(s, step) else s)

  // ---- the invariant

  /** `wait` has reaped the child but not yet set the flag. */
  predicate InReapGap(main: nat) {
    DRAINING <= main <= FLAG_SET
  }

  /** `wait` has returned. */
  predicate AfterWait(main: nat) {
    main > FLAG_SET
  }

  ghost predicate MainSound(s: State) {
    && s.main <= RETURNED
    && (s.slot <==> s.main != RETURNED)
    && (s.child.NoChild? ==> s.main == STARTING || s.main >= RELEASING)
    && (!s.child.NoChild? ==> s.main > STARTING)
    && (s.child.Running? || s.child.Zombie? ==> s.main <= REAPING)
    && (s.child.Reaped? ==> s.main > REAPING)
    && (s.reaped <==> AfterWait(s.main) && !s.child.NoChild?)
    && (s.mu.OfMain? <==> s.main == FLAG_SET)
    && (WATCH_START < s.main < REAPING ==> s.pty)
    && (s.reported <==> s.main > REPORTING)
  }

  ghost predicate WatcherSound(s: State) {
    && (s.watcher.Unborn? <==> s.child.NoChild? || s.main == WATCH_START)
    && (s.done <==> !s.child.NoChild? && s.main > WATCH_STOP)
    && (s.mu.OfWatcher? <==> s.watcher.HupSend? || s.watcher.KillSend?)
    && (s.watcher.SecondSelect? ==> s.watcher.elapsed <= KILL_GRACE_MS)
    && (s.watcher.KillLock? || s.watcher.KillSend? ==> s.watcher.elapsed >= KILL_GRACE_MS)
    && (s.main >= RELEASING && !s.child.NoChild? ==> s.watcher.Gone?)
    && (s.connected ==> s.watcher.Unborn? || s.watcher.FirstSelect? || (s.watcher.Gone? && s.done))
    && (s.sent != [] ==> !s.connected)
  }

  ghost predicate ResizerSound(s: State) {
    && (s.resizer.NotStarted? <==> !s.pty || s.child.NoChild? || s.main <= RESIZE_START)
    && (s.stop <==> s.pty && !s.child.NoChild? && s.main > RESIZE_STOP)
    && (s.ptyOpen <==> s.pty && !s.child.NoChild? && s.main <= PTY_CLOSE)
    && (s.pty && !s.child.NoChild? && s.main >= PTY_CLOSE ==> s.resizer.Ended?)
    && !s.resizedClosed
    && s.resizes + s.windows + (if s.resizer.Resizing? then 1 else 0) == s.arrived + (if FirstResized(s) then 1 else 0)
  }

  /** The size the terminal was requested with has been set. */
  predicate FirstResized(s: State) {
    s.pty && !s.child.NoChild? && s.main > FIRST_RESIZE
  }

  /** A hang-up, then a kill, each at most once, none with the flag set. */
  ghost predicate SentSound(s: State) {
    && |s.sent| <= 2
    && (|s.sent| >= 1 ==> s.sent[0].signal == SigHup)
    && (|s.sent| == 2 ==> s.sent[1].signal == SigKill && s.sent[1].waited >= KILL_GRACE_MS)
    && (forall i :: 0 <= i < |s.sent| ==> !s.sent[i].flag && (s.sent[i].child.Reaped? <==> InReapGap(s.sent[i].main)))
    && (s.watcher.Unborn? || s.watcher.FirstSelect? || s.watcher.HupLock? || s.watcher.HupSend? ==> s.sent == [])
    && (s.watcher.SecondSelect? || s.watcher.KillLock? || s.watcher.KillSend? ==>
          |s.sent| == 1 || (s.sent == [] && s.reaped))
    && (s.watcher.Gone? && |s.sent| < 2 ==> s.reaped)
  }

  ghost predicate Inv(s: State) {
    MainSound(s) && WatcherSound(s) && ResizerSound(s) && SentSound(s)
  }

  lemma MainKeepsInv(s: State, fails: bool)
    requires Inv(s) && Enabled(s, ByMain(fails))
    ensures Inv(Apply(s, ByMain(fails)))
  {
  }

  lemma WatcherKeepsInv(s: State, act: WatcherAct)
    requires Inv(s) && WatcherCan(s, act)
    ensures Inv(Watched(s, act))
  {
  }

  lemma ResizerKeepsInv(s: State, act: ResizerAct)
    requires Inv(s) && ResizerCan(s, act)
    ensures Inv(Resized(s, act))
  {
  }

  lemma EnvironmentKeepsInv(s: State, step: Step)
    requires Inv(s) && Enabled(s, step) && (step.ByKernel? || step.ByClient? || step.ByClock?)
    ensures Inv(Apply(s, step))
  {
  }

  /** Every step of every goroutine keeps the invariant. */
  lemma StepKeepsInv(s: State, step: Step)
    requires Inv(s) && Enabled(s, step)
    ensures Inv(Apply(s, step))
  {
    match step
    case ByMain(fails) => MainKeepsInv(s, fails);
    case ByWatcher(act) => WatcherKeepsInv(s, act);
    case ByResizer(act) => ResizerKeepsInv(s, act);
    case _ => EnvironmentKeepsInv(s, step);
  }

  lemma SessionKeepsInv()
    ensures Keeps(SESSION, Inv)
  {
    forall s, step | Inv(s) && SESSION.enabled(s, step) ensures Inv(SESSION.apply(s, step)) {
      StepKeepsInv(s, step);
    }
  }
}
