/** The max-duration timer of internal/proxy/session.go among all goroutines of a session: once it fires, the session
    ends, whatever traffic goes on.  HardCap says by when. */
module MaxDuration {
  import opened ProxySession
  import opened ProxyTeardown
  import opened Fairness
  import opened Runs

  /** What returns or fires in time on its own: writes, which have a deadline, and the grace timer. */
  predicate Prompt(s: State, p: Process) {
    match p
    case ThePing => s.ping.PingWrite?
    case TheOutbound => s.outbound.WriteWs?
    case TheTimer => s.timer.TimerWrite? || s.timer.ArmGrace?
    case TheGrace => s.grace.GracePending?
    case _ => false
  }

  /** It does so by a step of its own. */
  lemma PromptCanMove(s: State, p: Process)
    requires Prompt(s, p)
    ensures exists step :: Enabled(s, step) && Mover(Take(step)) == p
  {
    var step := match p
      case ThePing => ByPing(PingWrites(false))
      case TheOutbound => ByOutbound(Write(false))
      case TheTimer => ByTimer(if s.timer.TimerWrite? then TimerWrites else TimerArmsGrace)
      case _ => ByGrace;
    assert Enabled(s, step) && Mover(Take(step)) == p;
  }

  // ---- the write mutex

  ghost predicate ReadyAt(run: nat -> State, j: nat, k: nat) {
    j <= k && TimerCan(run(k), TimerLocks)
  }

  ghost predicate ReadyFrom(run: nat -> State, j: nat) {
    exists k: nat :: ReadyAt(run, j, k)
  }

  ghost predicate TakesLock(choice: nat -> Choice<Step>, k: nat) {
    choice(k) == Take(ByTimer(TimerLocks))
  }

  /** A callback that waits for the mutex while it is free again and again gets it at last. */
  ghost predicate FairLock(run: nat -> State, choice: nat -> Choice<Step>) {
    (forall j: nat :: ReadyFrom(run, j)) ==> exists k: nat :: TakesLock(choice, k)
  }

  ghost predicate IsFairRun(run: nat -> State, choice: nat -> Choice<Step>) {
    && IsRun(SESSION, run, choice) && Reachable(SESSION, INITIAL, run(0))
    && WeaklyFair(run, Movers(choice), Able) && WeaklyFair(run, Movers(choice), Prompt)
  }

  // ---- the stages of the callback

  function TimerStage(t: Timer): nat {
    match t
    case Unarmed => 0
    case Armed => 1
    case TimerLock => 2
    case TimerWrite => 3
    case ArmGrace => 4
    case TimerDone => 5
    case TimerStopped => 5
  }

  lemma StepMovesTimerOn(s: State, step: Step)
    requires Inv(s) && Enabled(s, step)
    ensures TimerStage(s.timer) <= TimerStage(Apply(s, step).timer)
    ensures step.ByTimer? ==> TimerStage(s.timer) < TimerStage(Apply(s, step).timer)
    ensures TimerStage(s.timer) >= 2 && !step.ByTimer? ==> Apply(s, step).timer == s.timer
    ensures TimerStage(s.timer) >= 2 && !s.timer.TimerStopped? ==> !Apply(s, step).timer.TimerStopped?
  {
  }

  lemma {:induction false} TimerMovesOn(run: nat -> State, choice: nat -> Choice<Step>, i: nat, j: nat)
    requires IsRun(SESSION, run, choice) && Reachable(SESSION, INITIAL, run(0)) && i <= j
    ensures TimerStage(run(i).timer) <= TimerStage(run(j).timer)
    ensures TimerStage(run(i).timer) >= 2 && !run(i).timer.TimerStopped? ==> !run(j).timer.TimerStopped?
    decreases j
  {
    if i < j {
      TimerMovesOn(run, choice, i, j - 1);
      InvAt(run, choice, j - 1);
      assert IsInstant(SESSION, run, choice, j - 1);
      if choice(j - 1).Take? {
        StepMovesTimerOn(run(j - 1), choice(j - 1).step);
      }
    }
  }

  function HolderProcess(s: State): Process {
    if s.holder.PingHolds? then ThePing else if s.holder.OutHolds? then TheOutbound else TheTimer
  }

  lemma HolderStep(s: State, step: Step)
    requires Inv(s) && Enabled(s, step) && !s.holder.Nobody?
    ensures Prompt(s, HolderProcess(s))
    ensures Apply(s, step).holder.Nobody?
            || (Apply(s, step).holder == s.holder && Mover(Take(step)) != HolderProcess(s))
  {
  }

  /** Whoever holds the mutex lets go of it. */
  lemma LockIsReleased(run: nat -> State, choice: nat -> Choice<Step>, i: nat) returns (n: nat)
    requires IsFairRun(run, choice)
    ensures i <= n && run(n).holder.Nobody?
  {
    var over, rank := (s: State) => s.holder.Nobody?, (s: State) => if s.holder.Nobody? then 0 else 1;
    forall j: nat | i <= j ensures Descends(run, Movers(choice), Prompt, over, rank, HolderProcess, j) {
      InvAt(run, choice, j);
      assert IsInstant(SESSION, run, choice, j);
      if !run(j).holder.Nobody? {
        assert Prompt(run(j), HolderProcess(run(j)));
        if choice(j).Take? {
          HolderStep(run(j), choice(j).step);
        }
      }
    }
    n := FairRunsEnd(run, Movers(choice), Prompt, over, rank, HolderProcess, i);
  }

  lemma LockIsOffered(run: nat -> State, choice: nat -> Choice<Step>, i: nat, j: nat)
    requires IsFairRun(run, choice) && forall k: nat :: i <= k ==> run(k).timer.TimerLock?
    ensures ReadyFrom(run, j)
  {
    var k := LockIsReleased(run, choice, if i <= j then j else i);
    assert ReadyAt(run, j, k);
  }

  /** A callback that waits for the mutex gets it. */
  lemma CallbackGetsLock(run: nat -> State, choice: nat -> Choice<Step>, i: nat) returns (n: nat)
    requires IsFairRun(run, choice) && FairLock(run, choice) && run(i).timer.TimerLock?
    ensures i <= n && TimerStage(run(n).timer) > 2
  {
    if e: nat :| i <= e && !run(e).timer.TimerLock? {
      TimerMovesOn(run, choice, i, e);
      n := e;
    } else {
      forall j: nat ensures ReadyFrom(run, j) {
        LockIsOffered(run, choice, i, j);
      }
      var k: nat :| TakesLock(choice, k);
      assert IsInstant(SESSION, run, choice, k);
      n := if i <= k then k + 1 else i;
      TimerMovesOn(run, choice, k + 1, n);
    }
  }

  lemma CallbackEnds(run: nat -> State, choice: nat -> Choice<Step>, i: nat) returns (n: nat)
    requires IsFairRun(run, choice) && TimerStage(run(i).timer) > 2 && !run(i).timer.TimerStopped?
    ensures i <= n && run(n).timer.TimerDone?
  {
    var over, rank := (s: State) => s.timer.TimerDone?, (s: State) => 5 - TimerStage(s.timer);
    var helpful := (s: State) => TheTimer;
    forall j: nat | i <= j ensures Descends(run, Movers(choice), Prompt, over, rank, helpful, j) {
      InvAt(run, choice, j);
      TimerMovesOn(run, choice, i, j);
      assert IsInstant(SESSION, run, choice, j);
      if choice(j).Take? {
        StepMovesTimerOn(run(j), choice(j).step);
      }
    }
    n := FairRunsEnd(run, Movers(choice), Prompt, over, rank, helpful, i);
  }

  lemma GraceStep(s: State, step: Step)
    requires Inv(s) && Enabled(s, step) && s.timer.TimerDone?
    ensures Apply(s, step).timer.TimerDone?
    ensures if step.ByGrace? then Apply(s, step).grace.GraceFired? else Apply(s, step).grace == s.grace
  {
  }

  lemma GraceFires(run: nat -> State, choice: nat -> Choice<Step>, i: nat) returns (n: nat)
    requires IsFairRun(run, choice) && run(i).timer.TimerDone?
    ensures i <= n && run(n).grace.GraceFired?
  {
    var over, rank := (s: State) => s.grace.GraceFired?, (s: State) => if s.grace.GraceFired? then 0 else 1;
    var helpful := (s: State) => TheGrace;
    forall j: nat | i <= j ensures Descends(run, Movers(choice), Prompt, over, rank, helpful, j) {
      InvAt(run, choice, j);
      TimerMovesOn(run, choice, i, j);
      assert IsInstant(SESSION, run, choice, j);
      if choice(j).Take? {
        GraceStep(run(j), choice(j).step);
      }
    }
    n := FairRunsEnd(run, Movers(choice), Prompt, over, rank, helpful, i);
  }

  /** Once the max-duration timer has fired, every weakly fair run with a fair mutex ends main, ping loop, runner and
      both pumps, though data and pings go on and the peer ignores the close frame. */
  lemma MaxDurationEndsSession(run: nat -> State, choice: nat -> Choice<Step>, i: nat) returns (n: nat)
    requires IsFairRun(run, choice) && FairLock(run, choice) && choice(i) == Take(ByTimer(Fire))
    ensures i < n && AllEnded(run(n))
  {
    assert IsInstant(SESSION, run, choice, i);
    n := CallbackGetsLock(run, choice, i + 1);
    TimerMovesOn(run, choice, i + 1, n);
    n := CallbackEnds(run, choice, n);
    n := GraceFires(run, choice, n);
    InvAt(run, choice, n);
    n := SessionEnds(run, choice, n);
  }
}
