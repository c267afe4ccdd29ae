/** What holds over every run of a session: the signals it sends, the order of its teardown, and that a session
    whose client is gone gives its slot back. */
module SshSessionProperties {
  import opened SshSession
  import opened Fairness
  import opened Runs

  // ---- safety over every interleaving

  lemma ReachableInv(pty: bool, s: State)
    requires Reachable(SESSION, Initial(pty), s)
    ensures Inv(s)
  {
    SessionKeepsInv();
    ReachableKeeps(SESSION, Inv, Initial(pty), s);
  }

  /** A client that stays connected has nothing signalled.  Otherwise at most one SIGHUP, then at most one SIGKILL and
      that five seconds later or more; no signal with the flag set; and a signal can meet a child that is already reaped
      only in the gap between the reap and the flag. */
  lemma SignalsAreOrderly(pty: bool, s: State)
    requires Reachable(SESSION, Initial(pty), s)
    ensures s.connected ==> s.sent == []
    ensures |s.sent| <= 2
    ensures |s.sent| > 0 ==> s.sent[0].signal == SigHup
    ensures |s.sent| > 1 ==> s.sent[1].signal == SigKill && s.sent[1].waited >= 5_000
    ensures forall i :: 0 <= i < |s.sent| ==>
      !s.sent[i].flag && (s.sent[i].child.Reaped? <==> InReapGap(s.sent[i].main))
  {
    ReachableInv(pty, s);
  }

  lemma StepAfterWait(s: State, step: Step)
    requires Inv(s) && AfterWait(s.main) && Enabled(s, step)
    ensures Apply(s, step).sent == s.sent && AfterWait(Apply(s, step).main)
  {
    match step
    case ByWatcher(act) => assert !s.reaped ==> s.watcher.Unborn?;
    case ByMain(fails) => assert !fails;
    case _ =>
  }

  /** Once wait has returned nothing is signalled any more, whichever ready branch a select takes. */
  lemma NoSignalAfterWait(pty: bool, s: State, later: State)
    requires Reachable(SESSION, Initial(pty), s) && AfterWait(s.main) && Reachable(SESSION, s, later)
    ensures later.sent == s.sent
  {
    ReachableInv(pty, s);
    var inv := (x: State) => Inv(x) && AfterWait(x.main) && x.sent == s.sent;
    forall x, step | inv(x) && SESSION.enabled(x, step) ensures inv(SESSION.apply(x, step)) {
      StepKeepsInv(x, step);
      StepAfterWait(x, step);
    }
    ReachableKeeps(SESSION, inv, s, later);
  }

  /** The slot is given back only when there is no child left to hold it: none was started, or it is reaped, the
      flag says so and the watcher has ended; and the client was told how it went. */
  lemma SlotOutlivesChild(pty: bool, s: State)
    requires Reachable(SESSION, Initial(pty), s) && !s.slot
    ensures s.child.NoChild? || (s.child.Reaped? && s.reaped && s.watcher.Gone?)
    ensures s.reported
  {
    ReachableInv(pty, s);
  }

  /** The terminal is never resized once it is closed, and closed only after the resizing goroutine ended. */
  lemma TerminalClosedAfterResizer(pty: bool, s: State)
    requires Reachable(SESSION, Initial(pty), s)
    ensures !s.resizedClosed
    ensures s.pty && !s.child.NoChild? && !s.ptyOpen ==> s.resizer.Ended?
  {
    ReachableInv(pty, s);
  }

  /** No window change is lost or applied twice: each one that arrived is still to come, being applied, or applied, and
      so is the size the terminal was requested with. */
  lemma ResizesAreApplied(pty: bool, s: State)
    requires Reachable(SESSION, Initial(pty), s)
    ensures s.resizes + s.windows + (if s.resizer.Resizing? then 1 else 0) ==
            s.arrived + (if s.pty && !s.child.NoChild? && s.main > FIRST_RESIZE then 1 else 0)
  {
    ReachableInv(pty, s);
  }

  /** A start that fails is reported and gives the slot back at once, with nothing left running. */
  lemma FailedStartReleases(pty: bool)
    ensures Reachable(SESSION, Initial(pty), Initial(pty).(main := RETURNED, slot := false, reported := true))
  {
    var start := Initial(pty);
    Stay(SESSION, start);
    var s := Go(SESSION, start, start, ByMain(true));
    s := Go(SESSION, start, s, ByMain(false));
    assert s == start.(main := RETURNED, slot := false, reported := true);
  }

  /** Copying output to a client may fail while the command runs on. */
  lemma CopyMayFail(pty: bool, s: State)
    requires Reachable(SESSION, Initial(pty), s) && (s.main == COPYING || s.main == DRAINING)
    ensures Enabled(s, ByMain(false)) && Apply(s, ByMain(false)).main == s.main + 1
  {
  }

  // ---- the gap

  /** A session whose client disconnects at once, up to the watcher asking for the mutex to hang up. */
  lemma HangUpPending(pty: bool) returns (s: State)
    ensures Reachable(SESSION, Initial(pty), s)
    ensures s == Initial(pty).(main := if pty then FIRST_RESIZE else REAPING, watcher := HupLock, child := Running,
                               outputOpen := true, connected := false, ptyOpen := pty)
  {
    var start := Initial(pty);
    Stay(SESSION, start);
    s := Go(SESSION, start, start, ByMain(false));
    s := Go(SESSION, start, s, ByMain(false));
    s := Go(SESSION, start, s, ByClient(Disconnect));
    s := Go(SESSION, start, s, ByWatcher(SeeDisconnect));
  }

  lemma MainGoes(start: State, x: State) returns (s: State)
    requires Reachable(SESSION, start, x) && MainAble(x)
    ensures Reachable(SESSION, start, s) && s == Advanced(x)
  {
    s := Go(SESSION, start, x, ByMain(false));
  }

  /** The rest of a state, as far as signals are concerned. */
  ghost predicate SignalsAlike(x: State, s: State) {
    s.watcher == x.watcher && s.mu == x.mu && s.child == x.child && s.sent == x.sent && s.reaped == x.reaped
  }

  /** The main goroutine of a session on a terminal, from the first resize to stopping the resizer. */
  lemma ResizerStopped(start: State, x: State) returns (s: State)
    requires Reachable(SESSION, start, x) && x.main == FIRST_RESIZE && x.pty && x.outputOpen
    ensures Reachable(SESSION, start, s) && SignalsAlike(x, s)
    ensures s.main == RESIZE_JOIN && s.resizer.Selecting? && s.stop
  {
    s := Go(SESSION, start, x, ByKernel(false));
    s := MainGoes(start, s);
    s := MainGoes(start, s);
    s := MainGoes(start, s);
    s := MainGoes(start, s);
  }

  lemma TerminalTornDown(start: State, x: State) returns (s: State)
    requires Reachable(SESSION, start, x) && x.main == FIRST_RESIZE && x.pty && x.outputOpen
    ensures Reachable(SESSION, start, s) && SignalsAlike(x, s) && s.main == REAPING
  {
    s := ResizerStopped(start, x);
    s := Go(SESSION, start, s, ByResizer(SeeStop));
    s := MainGoes(start, s);
    s := MainGoes(start, s);
  }

  /** The gap is real, on both paths: a hang-up can reach the process group of a child that the kernel has already
      reaped, against the promise in the comment of `sessionCmd`. */
  lemma SignalCanFollowReap(pty: bool) returns (s: State)
    ensures Reachable(SESSION, Initial(pty), s)
    ensures |s.sent| == 1 && s.sent[0].child.Reaped? && !s.reaped
  {
    var start := Initial(pty);
    s := HangUpPending(pty);
    s := Go(SESSION, start, s, ByKernel(true));
    if pty {
      s := TerminalTornDown(start, s);
    }
    s := Go(SESSION, start, s, ByMain(false));
    s := Go(SESSION, start, s, ByWatcher(LockMutex));
    s := Go(SESSION, start, s, ByWatcher(Send));
  }

  // ---- liveness after a disconnect

  datatype Process = TheMain | TheWatcher | TheResizer | TheKernel | TheClock | TheClient

  function Mover(choice: Choice<Step>): Process {
    match choice
    case Idle => TheClient
    case Take(ByMain(_)) => TheMain
    case Take(ByWatcher(_)) => TheWatcher
    case Take(ByResizer(_)) => TheResizer
    case Take(ByKernel(_)) => TheKernel
    case Take(ByClock) => TheClock
    case Take(ByClient(_)) => TheClient
  }

  /** A SIGKILL was sent: from now on the kernel ends the child and its output. */
  predicate Killed(s: State) {
    |s.sent| == 2
  }

  predicate Able(s: State, p: Process) {
    match p
    case TheMain => MainAble(s)
    case TheWatcher =>
      || (s.watcher.FirstSelect? && (s.done || !s.connected))
      || ((s.watcher.HupLock? || s.watcher.KillLock?) && s.mu.Free?)
      || s.watcher.HupSend? || s.watcher.KillSend?
      || (s.watcher.SecondSelect? && (s.done || s.watcher.elapsed >= KILL_GRACE_MS))
    case TheResizer =>
      s.resizer.Resizing? || (s.resizer.Selecting? && (s.stop || s.windows > 0 || s.windowsClosed))
    case TheKernel => Killed(s) && (s.child.Running? || s.outputOpen)
    case TheClock => s.watcher.SecondSelect? && s.watcher.elapsed < KILL_GRACE_MS
    case TheClient => false
  }

  /** A process is able only if it has a step to take. */
  lemma AbleCanMove(s: State, p: Process)
    requires Able(s, p)
    ensures exists step :: Enabled(s, step) && Mover(Take(step)) == p
  {
    var step := match p
      case TheMain => ByMain(false)
      case TheWatcher =>
        ByWatcher(match s.watcher
                  case FirstSelect => if s.done then SeeDone else SeeDisconnect
                  case SecondSelect(_) => if s.done then SeeDone else SeeTimer
                  case HupLock => LockMutex
                  case KillLock(_) => LockMutex
                  case _ => Send)
      case TheResizer =>
        ByResizer(if s.resizer.Resizing? then SetSize
                  else if s.stop then SeeStop
                  else if s.windows > 0 then TakeWindow
                  else SeeWindowsClosed)
      case TheKernel => ByKernel(s.child.Running?)
      case _ => ByClock;
    assert Enabled(s, step) && Mover(Take(step)) == p;
  }

  function WatcherWork(w: Watcher): int {
    match w
    case Unborn => KILL_GRACE_MS + 7
    case FirstSelect => KILL_GRACE_MS + 6
    case HupLock => KILL_GRACE_MS + 5
    case HupSend => KILL_GRACE_MS + 4
    case SecondSelect(elapsed) => KILL_GRACE_MS + 3 - elapsed
    case KillLock(_) => 2
    case KillSend(_) => 1
    case Gone => 0
  }

  function OtherWork(s: State): nat {
    (match s.resizer case NotStarted => 4 case Selecting => 2 case Resizing => 3 case Ended => 0)
    + (match s.child case NoChild => 4 case Running => 2 case Zombie => 1 case Reaped => 0)
    + 2 * s.windows
    + (if s.windowsClosed then 0 else 1)
    + (if s.outputOpen then 1 else 0)
  }

  function Work(s: State): nat {
    var w := RETURNED - s.main + WatcherWork(s.watcher) + OtherWork(s);
    if w < 0 then 0 else w
  }

  lemma MainUsesWork(s: State, fails: bool)
    requires Inv(s) && Enabled(s, ByMain(fails))
    ensures Work(Apply(s, ByMain(fails))) < Work(s)
  {
  }

  lemma WatcherUsesWork(s: State, act: WatcherAct)
    requires Inv(s) && WatcherCan(s, act)
    ensures Work(Watched(s, act)) < Work(s)
  {
  }

  lemma ResizerUsesWork(s: State, act: ResizerAct)
    requires Inv(s) && ResizerCan(s, act)
    ensures Work(Resized(s, act)) < Work(s)
  {
  }

  /** Once the client is gone every step uses up work, but for a tick of a clock nobody waits for. */
  lemma StepUsesWork(s: State, step: Step)
    requires Inv(s) && !s.connected && Enabled(s, step)
    ensures !Apply(s, step).connected
    ensures Work(Apply(s, step)) < Work(s) || (step.ByClock? && Apply(s, step) == s && !Able(s, TheClock))
  {
    match step
    case ByMain(fails) => MainUsesWork(s, fails);
    case ByWatcher(act) => WatcherUsesWork(s, act);
    case ByResizer(act) => ResizerUsesWork(s, act);
    case _ =>
  }

  function Helpful(s: State): Process {
    if MainAble(s) then TheMain
    else if s.main == RESIZE_JOIN then TheResizer
    else if s.main == FLAG_LOCK || s.main == WATCH_JOIN then TheWatcher
    else if Killed(s) then TheKernel
    else if s.watcher.SecondSelect? && s.watcher.elapsed < KILL_GRACE_MS then TheClock
    else TheWatcher
  }

  /** No deadlock: a session whose client is gone always has somebody who can move. */
  lemma SomeoneIsAble(s: State)
    requires Inv(s) && !s.connected && s.main != RETURNED
    ensures Able(s, Helpful(s))
  {
  }

  ghost predicate Orphaned(s: State) {
    Inv(s) && !s.connected
  }

  /** A session whose client has gone away releases its slot in every weakly fair run, on both paths, provided
      SIGKILL ends the child and its output; and by then the child is reaped and the watcher has ended. */
  lemma DisconnectedSessionEnds(pty: bool, run: nat -> State, choice: nat -> Choice<Step>) returns (n: nat)
    requires IsRun(SESSION, run, choice) && Reachable(SESSION, Initial(pty), run(0)) && !run(0).connected
    requires WeaklyFair(run, i => Mover(choice(i)), Able)
    ensures !run(n).slot && run(n).main == RETURNED
    ensures run(n).child.NoChild? || (run(n).child.Reaped? && run(n).watcher.Gone?)
  {
    ReachableInv(pty, run(0));
    forall x, step | Orphaned(x) && SESSION.enabled(x, step) ensures Orphaned(SESSION.apply(x, step)) {
      StepKeepsInv(x, step);
      StepUsesWork(x, step);
    }
    var mover := (i: nat) => Mover(choice(i));
    var over := (s: State) => s.main == RETURNED;
    forall i: nat
      ensures Descends(run, mover, Able, over, Work, Helpful, i)
    {
      InstantKeeps(SESSION, Orphaned, run, choice, i);
      assert IsInstant(SESSION, run, choice, i);
      if run(i).main != RETURNED {
        SomeoneIsAble(run(i));
        if choice(i).Take? {
          StepUsesWork(run(i), choice(i).step);
        }
      }
    }
    n := FairRunsEnd(run, mover, Able, over, Work, Helpful, 0);
    InstantKeeps(SESSION, Orphaned, run, choice, n);
  }

  // ---- liveness after the command's end, client connected or not

  /** The command has exited and nobody holds its output open any more. */
  predicate Exited(s: State) {
    (s.child.Zombie? || s.child.Reaped?) && !s.outputOpen
  }

  function Finisher(s: State): Process {
    if MainAble(s) then TheMain else if s.main == RESIZE_JOIN then TheResizer else TheWatcher
  }

  /** No deadlock either: main, or the goroutine it waits for, can move. */
  lemma FinisherIsAble(s: State)
    requires Inv(s) && Exited(s) && s.main != RETURNED
    ensures Able(s, Finisher(s))
  {
  }

  lemma ExitedStepUsesWork(s: State, step: Step)
    requires Inv(s) && Exited(s) && Enabled(s, step) && step != ByClient(WindowArrives)
    ensures Exited(Apply(s, step))
    ensures || Work(Apply(s, step)) < Work(s)
            || (step.ByClock? && Apply(s, step) == s)
            || (step == ByClient(Disconnect) && Apply(s, step) == s.(connected := false))
  {
    match step
    case ByMain(fails) => MainUsesWork(s, fails);
    case ByWatcher(act) => WatcherUsesWork(s, act);
    case ByResizer(act) => ResizerUsesWork(s, act);
    case _ =>
  }

  ghost predicate Finishing(s: State) {
    Inv(s) && Exited(s)
  }

  lemma {:induction false} StaysFinishing(run: nat -> State, choice: nat -> Choice<Step>, i: nat, j: nat)
    requires IsRun(SESSION, run, choice) && Finishing(run(i)) && i <= j
    requires forall k: nat :: i <= k ==> choice(k) != Take(ByClient(WindowArrives))
    ensures Finishing(run(j))
    decreases j
  {
    if i < j {
      StaysFinishing(run, choice, i, j - 1);
      assert IsInstant(SESSION, run, choice, j - 1);
      if choice(j - 1).Take? {
        StepKeepsInv(run(j - 1), choice(j - 1).step);
        ExitedStepUsesWork(run(j - 1), choice(j - 1).step);
      }
    }
  }

  lemma FinishDescends(s: State, choice: Choice<Step>, s': State)
    requires Finishing(s) && s.main != RETURNED && choice != Take(ByClient(WindowArrives))
    requires if choice.Idle? then s' == s else Enabled(s, choice.step) && s' == Apply(s, choice.step)
    ensures Able(s, Finisher(s))
    ensures Work(s') < Work(s) || (Work(s') == Work(s) && Finisher(s') == Finisher(s) != Mover(choice))
  {
    FinisherIsAble(s);
    if choice.Take? {
      ExitedStepUsesWork(s, choice.step);
    }
  }

  /** A session whose command has exited gives its slot back in every weakly fair run, whether its client stays
      connected or not, once no more window changes come in. */
  lemma FinishedSessionEnds(pty: bool, run: nat -> State, choice: nat -> Choice<Step>, i: nat) returns (n: nat)
    requires IsRun(SESSION, run, choice) && Reachable(SESSION, Initial(pty), run(0)) && Exited(run(i))
    requires forall k: nat :: i <= k ==> choice(k) != Take(ByClient(WindowArrives))
    requires WeaklyFair(run, i => Mover(choice(i)), Able)
    ensures i <= n && !run(n).slot && run(n).main == RETURNED && run(n).reported
  {
    ReachableInv(pty, run(0));
    SessionKeepsInv();
    InstantKeeps(SESSION, Inv, run, choice, i);
    var mover := (i: nat) => Mover(choice(i));
    var over := (s: State) => s.main == RETURNED;
    forall j: nat | i <= j
      ensures Descends(run, mover, Able, over, Work, Finisher, j)
    {
      StaysFinishing(run, choice, i, j);
      assert IsInstant(SESSION, run, choice, j);
      if run(j).main != RETURNED {
        FinishDescends(run(j), choice(j), run(j + 1));
      }
    }
    n := FairRunsEnd(run, mover, Able, over, Work, Finisher, i);
    StaysFinishing(run, choice, i, n);
  }
}
