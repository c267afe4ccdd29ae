/** A peer that has gone silent: the read deadline of Keepalive ends the session of ProxySession.  A run of the session
    is read together with the clock at each of its instants. */
module SilentPeer {
  import opened ProxySession
  import opened ProxyTeardown
  import opened Fairness
  import opened Runs
  import Clock = Keepalive

  /** The clock goes by the rules of Keepalive between two instants, and the library lets no read succeed past the
      deadline. */
  ghost predicate Clocked(
    k: Clock.Timing, clock: nat -> Clock.State, choice: nat -> Choice<Step>, j: nat)
  {
    && Reachable(Clock.Session(k), clock(j), clock(j + 1))
    && (choice(j) == Take(ByInbound(Read(true))) ==> !Clock.TimedOut(clock(j)))
  }

  /** And no pong is handled. */
  ghost predicate SilentAt(k: Clock.Timing, clock: nat -> Clock.State, j: nat) {
    Reachable(Clock.Silent(k), clock(j), clock(j + 1))
  }

  /** The inbound pump is in a read or in a write. */
  predicate Pumping(s: State, p: Process) {
    p == TheInbound && (s.inbound.ReadWs? || s.inbound.WriteTcp?)
  }

  function PumpRank(s: State): nat {
    match s.inbound
    case WriteTcp => 2
    case ReadWs => 1
    case _ => 0
  }

  lemma {:induction false} SilentFor(k: Clock.Timing, clock: nat -> Clock.State, i: nat, j: nat)
    requires i <= j && forall n: nat :: i <= n ==> SilentAt(k, clock, n)
    ensures Reachable(Clock.Silent(k), clock(i), clock(j))
    decreases j
  {
    if i == j {
      Stay(Clock.Silent(k), clock(i));
    } else {
      SilentFor(k, clock, i, j - 1);
      assert SilentAt(k, clock, j - 1);
      ReachableThrough(Clock.Silent(k), clock(i), clock(j - 1), clock(j));
    }
  }

  lemma {:induction false} StaysTimedOut(
    k: Clock.Timing, clock: nat -> Clock.State, choice: nat -> Choice<Step>, i: nat, j: nat)
    requires i <= j && Clock.TimedOut(clock(i)) && forall n: nat :: Clocked(k, clock, choice, n)
    ensures Clock.TimedOut(clock(j))
    decreases j
  {
    if i < j {
      StaysTimedOut(k, clock, choice, i, j - 1);
      assert Clocked(k, clock, choice, j - 1);
      Clock.TimedOutForGood(k, clock(j - 1), clock(j));
    }
  }

  lemma {:induction false} PumpStays(run: nat -> State, choice: nat -> Choice<Step>, i: nat, j: nat)
    requires IsRun(SESSION, run, choice) && i <= j && !run(i).inbound.NoInbound?
    requires Reachable(SESSION, INITIAL, run(0))
    ensures !run(j).inbound.NoInbound?
    decreases j
  {
    if i < j {
      PumpStays(run, choice, i, j - 1);
      InvAt(run, choice, j - 1);
      assert IsInstant(SESSION, run, choice, j - 1);
      if choice(j - 1).Take? {
        StepKeepsPump(run(j - 1), choice(j - 1).step);
      }
    }
  }

  lemma StepKeepsPump(s: State, step: Step)
    requires Inv(s) && Enabled(s, step) && !s.inbound.NoInbound?
    ensures !Apply(s, step).inbound.NoInbound?
    ensures if step.ByInbound?
            then step.pump == Read(true) || PumpRank(Apply(s, step)) < PumpRank(s) || Ending(Apply(s, step))
            else Apply(s, step).inbound == s.inbound
  {
  }

  /** Past the deadline the inbound pump stops, whether it is reading or still has a message to write. */
  lemma PumpStops(
    k: Clock.Timing, clock: nat -> Clock.State, run: nat -> State, choice: nat -> Choice<Step>, i: nat) returns (n: nat)
    requires IsRun(SESSION, run, choice) && Reachable(SESSION, INITIAL, run(0)) && !run(i).inbound.NoInbound?
    requires WeaklyFair(run, Movers(choice), Pumping)
    requires Clock.TimedOut(clock(i)) && forall n: nat :: Clocked(k, clock, choice, n)
    ensures i <= n && Ending(run(n))
  {
    var mover := Movers(choice);
    var helpful := (s: State) => TheInbound;
    forall j: nat | i <= j ensures Descends(run, mover, Pumping, Ending, PumpRank, helpful, j) {
      PumpStays(run, choice, i, j);
      StaysTimedOut(k, clock, choice, i, j);
      InvAt(run, choice, j);
      assert IsInstant(SESSION, run, choice, j) && Clocked(k, clock, choice, j);
      if choice(j).Take? {
        StepKeepsPump(run(j), choice(j).step);
      }
    }
    n := FairRunsEnd(run, mover, Pumping, Ending, PumpRank, helpful, i);
  }

  /** If from some instant on no pong is handled, and the ping timeout goes by, every weakly fair run ends the whole
      session: main, ping loop, runner and both pumps.  Reads past their deadline and writes to the target return. */
  lemma SilentPeerEndsSession(
    k: Clock.Timing, start: nat, clock: nat -> Clock.State, run: nat -> State, choice: nat -> Choice<Step>,
    i: nat, m: nat) returns (n: nat)
    requires IsRun(SESSION, run, choice) && Reachable(SESSION, INITIAL, run(0))
    requires WeaklyFair(run, Movers(choice), Able) && WeaklyFair(run, Movers(choice), Pumping)
    requires Reachable(Clock.Session(k), Clock.Initial(k, start), clock(i))
    requires forall n: nat :: Clocked(k, clock, choice, n)
    requires forall n: nat :: i <= n ==> SilentAt(k, clock, n)
    requires i <= m && clock(m).now > clock(i).now + k.pingTimeout && !run(m).inbound.NoInbound?
    ensures m <= n && AllEnded(run(n))
  {
    SilentFor(k, clock, i, m);
    Clock.DeadPeerIsDropped(k, start, clock(i), clock(m));
    n := PumpStops(k, clock, run, choice, m);
    n := SessionEnds(run, choice, n);
  }
}
