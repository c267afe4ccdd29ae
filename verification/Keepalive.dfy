/** Ping, pong and the read deadline of internal/proxy/session.go, in real time.

    The read deadline is set once before the target is dialed and moved only by the pong handler.  The ping loop
    starts after the dial; its ticker drops a tick when the previous one has not been taken. */
module Keepalive {
  import opened Options
  import opened Runs

  /** `pongDelay` bounds the time from a tick to the handling of the pong it leads to: waiting for the loop and the
      write mutex, writing, travelling, and reading the answer.  It binds only a peer that answers. */
  datatype Timing = Timing(
    pingInterval: nat, pingTimeout: nat, dialTime: nat, pongDelay: nat, answers: bool)

  /** Ticks are known by the instant they happened at.  `tick` sits in the ticker's channel, `writing` is being
      turned into a ping, `sent` are pings without an answer so far, oldest first. */
  datatype State = State(
    now: nat, start: nat, dialed: bool, deadline: nat, lastReset: nat,
    nextTick: nat, tick: Option<nat>, writing: Option<nat>, sent: seq<nat>)

  function Initial(k: Timing, start: nat): State {
    State(start, start, false, start + k.pingTimeout, start, 0, None, None, [])
  }

  datatype Step =
    | DialEnds     // and the ping loop starts its ticker
    | Tick
    | TakeTick
    | PingWritten
    | Pong         // handled by the pump that reads; one nobody asked for counts as well
    | Pass(ms: nat)

  /** The oldest tick whose pong has not been handled. */
  function Oldest(s: State): Option<nat> {
    if s.sent != [] then Some(s.sent[0])
    else if s.writing.Some? then s.writing
    else s.tick
  }

  /** A read is past its deadline and fails. */
  predicate TimedOut(s: State) {
    s.now > s.deadline
  }

  predicate Enabled(k: Timing, s: State, step: Step) {
    match step
    case DialEnds => !s.dialed
    case Tick => s.dialed && s.now == s.nextTick
    case TakeTick => s.tick.Some? && s.writing.None?
    case PingWritten => s.writing.Some?
    case Pong => s.dialed && !TimedOut(s)
    case Pass(ms) =>
      && (!s.dialed ==> s.now + ms <= s.start + k.dialTime)
      && (s.dialed ==> s.now + ms <= s.nextTick)
      && (k.answers && Oldest(s).Some? ==> s.now + ms <= Oldest(s).value + k.pongDelay)
  }

  function Apply(k: Timing, s: State, step: Step): State
    requires Enabled(k, s, step)
  {
    match step
    case DialEnds => s.(dialed := true, nextTick := s.now + k.pingInterval)
    case Tick => s.(nextTick := s.now + k.pingInterval, tick := if s.tick.None? then Some(s.now) else s.tick)
    case TakeTick => s.(writing := s.tick, tick := None)
    case PingWritten => s.(sent := s.sent + [s.writing.value], writing := None)
    case Pong =>
      s.(sent := if s.sent == [] then [] else s.sent[1..], deadline := s.now + k.pingTimeout, lastReset := s.now)
    case Pass(ms) => s.(now := s.now + ms)
  }

  function Session(k: Timing): Machine<State, Step> {
    Machine((s, step) => Enabled(k, s, step), (s, step) => if Enabled(k, s, step) then Apply(k, s, step) else s)
  }

  // ---- an answering peer is kept

  ghost predicate Enough(k: Timing) {
    k.dialTime + k.pingInterval + k.pongDelay <= k.pingTimeout
  }

  ghost predicate Inv(k: Timing, s: State) {
    && s.deadline == s.lastReset + k.pingTimeout
    && s.start <= s.lastReset <= s.now
    && TicksInOrder(s)
    && (!s.dialed ==> s.lastReset == s.start && s.now <= s.start + k.dialTime && Oldest(s).None?)
    && (s.dialed ==> s.now <= s.nextTick <= s.now + k.pingInterval)
  }

  /** Ticks are answered in the order they happened. */
  ghost predicate TicksInOrder(s: State) {
    && (forall i, j :: 0 <= i < j < |s.sent| ==> s.sent[i] <= s.sent[j])
    && (forall i :: 0 <= i < |s.sent| ==> s.sent[i] <= s.now)
    && (forall i :: 0 <= i < |s.sent| && s.writing.Some? ==> s.sent[i] <= s.writing.value)
    && (forall i :: 0 <= i < |s.sent| && s.tick.Some? ==> s.sent[i] <= s.tick.value)
    && (s.writing.Some? ==> s.writing.value <= s.now && (s.tick.Some? ==> s.writing.value <= s.tick.value))
    && (s.tick.Some? ==> s.tick.value <= s.now)
  }

  /** The deadline lies no earlier than the moment by which the next pong is due. */
  ghost predicate PongDueInTime(k: Timing, s: State) {
    && (s.dialed ==> s.deadline >= k.pongDelay + (if Oldest(s).Some? then Oldest(s).value else s.nextTick))
    && (Oldest(s).Some? ==> s.now <= Oldest(s).value + k.pongDelay)
  }

  lemma StepKeepsInv(k: Timing, s: State, step: Step)
    requires Inv(k, s) && Enabled(k, s, step)
    ensures Inv(k, Apply(k, s, step))
  {
  }

  lemma StepKeepsPongDue(k: Timing, s: State, step: Step)
    requires Inv(k, s) && PongDueInTime(k, s) && Enabled(k, s, step) && k.answers && Enough(k)
    ensures PongDueInTime(k, Apply(k, s, step))
  {
    match step
    case Pong =>
      if s.sent != [] {
        assert forall i :: 0 <= i < |s.sent[1..]| ==> s.sent[1..][i] == s.sent[i + 1];
      }
    case _ =>
  }

  lemma ReachableInv(k: Timing, start: nat, s: State)
    requires Reachable(Session(k), Initial(k, start), s)
    ensures Inv(k, s) && s.start == start
    ensures k.answers && Enough(k) ==> PongDueInTime(k, s)
  {
    var inv := (s: State) => Inv(k, s) && s.start == start && (k.answers && Enough(k) ==> PongDueInTime(k, s));
    forall x, step | inv(x) && Session(k).enabled(x, step) ensures inv(Session(k).apply(x, step)) {
      StepKeepsInv(k, x, step);
      if k.answers && Enough(k) {
        StepKeepsPongDue(k, x, step);
      }
    }
    ReachableKeeps(Session(k), inv, Initial(k, start), s);
  }

  // ---- and the condition is exact

  /** Time goes by, ticks and all, while the oldest ping waits for its answer. */
  lemma WaitForPong(k: Timing, start: State, before: State, until: nat) returns (s: State)
    requires Reachable(Session(k), start, before) && k.pingInterval > 0
    requires before.dialed && before.sent != [] && before.now <= before.nextTick
    requires before.now <= until <= before.sent[0] + k.pongDelay
    ensures Reachable(Session(k), start, s)
    ensures s.now == until && s.deadline == before.deadline
    decreases until - before.nextTick
  {
    if until <= before.nextTick {
      s := Go(Session(k), start, before, Pass(until - before.now));
    } else {
      s := Go(Session(k), start, before, Pass(before.nextTick - before.now));
      s := Go(Session(k), start, s, Tick);
      s := WaitForPong(k, start, s, until);
    }
  }

  /** The slowest dial and the slowest first answer. */
  lemma SlowAnswerIsDropped(k: Timing, at: nat) returns (s: State)
    requires !Enough(k) && k.pingInterval > 0
    ensures Reachable(Session(k), Initial(k, at), s) && TimedOut(s)
  {
    var start := Initial(k, at);
    Stay(Session(k), start);
    s := Go(Session(k), start, start, Pass(k.dialTime));
    s := Go(Session(k), start, s, DialEnds);
    s := Go(Session(k), start, s, Pass(k.pingInterval));
    s := Go(Session(k), start, s, Tick);
    s := Go(Session(k), start, s, TakeTick);
    s := Go(Session(k), start, s, PingWritten);
    s := WaitForPong(k, start, s, at + k.dialTime + k.pingInterval + k.pongDelay);
  }

  ghost predicate NeverTimedOut(k: Timing, start: nat) {
    forall s :: Reachable(Session(k), Initial(k, start), s) ==> !TimedOut(s)
  }

  /** An answering peer is never timed out, in any run, exactly when dial, interval and delay fit in the timeout;
      that the interval is below the timeout, which the configuration checks, is not enough. */
  lemma KeepaliveIff(k: Timing, start: nat)
    requires k.answers && k.pingInterval > 0
    ensures NeverTimedOut(k, start) <==> Enough(k)
  {
    if Enough(k) {
      forall s | Reachable(Session(k), Initial(k, start), s) ensures !TimedOut(s) {
        ReachableInv(k, start, s);
      }
    } else {
      var s := SlowAnswerIsDropped(k, start);
      assert !NeverTimedOut(k, start);
    }
  }

  // ---- time does not stop at a deadline

  /** Pings in hand and unanswered. */
  function Open(s: State): nat {
    3 * |s.sent| + (if s.writing.Some? then 4 else 0) + (if s.tick.Some? then 5 else 0)
  }

  /** All pings are written and answered, in no time if need be. */
  lemma {:induction false} PongsComeIn(k: Timing, start: State, x: State) returns (s: State)
    requires Reachable(Session(k), start, x) && x.dialed && !TimedOut(x)
    ensures Reachable(Session(k), start, s) && Oldest(s).None? && s.tick.None?
    ensures s.now == x.now && s.nextTick == x.nextTick && s.dialed && !TimedOut(s)
    decreases Open(x)
  {
    if x.sent != [] {
      s := Go(Session(k), start, x, Pong);
      s := PongsComeIn(k, start, s);
    } else if x.writing.Some? {
      s := Go(Session(k), start, x, PingWritten);
      s := PongsComeIn(k, start, s);
    } else if x.tick.Some? {
      s := Go(Session(k), start, x, TakeTick);
      s := PongsComeIn(k, start, s);
    } else {
      s := x;
    }
  }

  /** From every state that is not timed out time can go on, with the peer answering. */
  lemma TimeGoesOn(k: Timing, start: nat, s: State) returns (later: State)
    requires k.pingInterval > 0 && Reachable(Session(k), Initial(k, start), s) && !TimedOut(s)
    ensures Reachable(Session(k), s, later) && later.now > s.now
  {
    ReachableInv(k, start, s);
    Stay(Session(k), s);
    later := s;
    if !s.dialed {
      later := Go(Session(k), s, later, DialEnds);
    }
    later := PongsComeIn(k, s, later);
    if later.now == later.nextTick {
      later := Go(Session(k), s, later, Tick);
      later := PongsComeIn(k, s, later);
    }
    later := Go(Session(k), s, later, Pass(1));
  }

  // ---- a silent peer is dropped

  /** No pong is handled any more. */
  function Silent(k: Timing): Machine<State, Step> {
    Machine((s: State, step: Step) => !step.Pong? && Enabled(k, s, step),
            (s, step) => if Enabled(k, s, step) then Apply(k, s, step) else s)
  }

  /** A peer from which no pong is handled after some instant is timed out once PingTimeout has passed since, whatever
      else happens: ticks, pings, a dial that takes its time. */
  lemma DeadPeerIsDropped(k: Timing, start: nat, s: State, later: State)
    requires Reachable(Session(k), Initial(k, start), s) && Reachable(Silent(k), s, later)
    ensures later.now > s.now + k.pingTimeout ==> TimedOut(later)
    ensures TimedOut(later) <==> later.now > s.lastReset + k.pingTimeout
  {
    ReachableInv(k, start, s);
    var inv := (x: State) => x.deadline == s.deadline;
    forall x, step | inv(x) && Silent(k).enabled(x, step) ensures inv(Silent(k).apply(x, step)) {
    }
    ReachableKeeps(Silent(k), inv, s, later);
  }

  /** And there is no way back. */
  lemma TimedOutForGood(k: Timing, s: State, later: State)
    requires TimedOut(s) && Reachable(Session(k), s, later)
    ensures TimedOut(later)
  {
    var inv := (x: State) => TimedOut(x);
    forall x, step | inv(x) && Session(k).enabled(x, step) ensures inv(Session(k).apply(x, step)) {
    }
    ReachableKeeps(Session(k), inv, s, later);
  }
}
