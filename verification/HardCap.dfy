/** The hard cap on a proxied session, internal/proxy/session.go and bridge.go, in real time.

    Three writers share the bridge's write mutex: the outbound pump, the ping loop, and the callback of the
    max-duration timer, which writes a close frame before it arms the grace timer that cancels the session.
    Assumptions: timers fire when they are due, the mutex is granted in arrival order, and a library write ends by
    its deadline.  Time passes between steps only as these allow. */
module HardCap {
  import opened Runs

  const WRITE_WAIT_MS := 10_000
  const CLOSE_GRACE_MS := 5_000

  datatype Writer = Data | Ping | Close

  datatype Holder = Nobody | Held(writer: Writer, deadline: nat)

  datatype Phase =
    | Armed               // waiting for MaxSessionDuration
    | Closing             // the callback waits for the mutex or writes the close frame
    | Grace(due: nat)     // the grace timer is armed
    | Spent               // it fired
    | Stopped             // Run returned first and stopped the timer

  /** `fireAt` is the instant the max-duration timer is due.  Ping and close compute their deadlines before they
      wait for the mutex, the pump computes its own afterwards. */
  datatype State = State(
    now: nat, fireAt: nat, phase: Phase, queue: seq<Writer>, holder: Holder,
    pingDeadline: nat, cancelled: bool, returned: bool)

  function Initial(armedAt: nat, maxDuration: nat): State {
    State(armedAt, armedAt + maxDuration, Armed, [], Nobody, 0, false, false)
  }

  datatype Step =
    | Arrive(writer: Writer)  // Data or Ping asks for the mutex
    | Fire                    // the max-duration callback starts and asks for the mutex
    | Grant
    | WriteEnds
    | GraceFires
    | CancelEarly             // a ping failed or the request context ended
    | Return                  // Run returns
    | Pass(ms: nat)

  predicate Waiting(s: State, writer: Writer) {
    writer in s.queue || (s.holder.Held? && s.holder.writer == writer)
  }

  predicate Enabled(s: State, step: Step) {
    match step
    case Arrive(writer) => writer != Close && !Waiting(s, writer)
    case Fire => s.phase.Armed? && s.now == s.fireAt
    case Grant => s.holder.Nobody? && s.queue != []
    case WriteEnds => s.holder.Held?
    case GraceFires => s.phase.Grace? && s.now == s.phase.due
    case CancelEarly => true
    case Return => true
    case Pass(ms) =>
      && (s.holder.Nobody? ==> s.queue == [])
      && (s.holder.Held? ==> s.now + ms <= s.holder.deadline)
      && (s.phase.Armed? ==> s.now + ms <= s.fireAt)
      && (s.phase.Grace? ==> s.now + ms <= s.phase.due)
  }

  function Max(a: nat, b: nat): nat { if a < b then b else a }

  /** The deadline under which a writer works once it has the mutex. */
  function DeadlineOf(s: State, writer: Writer): nat {
    match writer
    case Data => s.now + WRITE_WAIT_MS
    case Ping => Max(s.now, s.pingDeadline)
    case Close => Max(s.now, s.fireAt + WRITE_WAIT_MS)
  }

  function Apply(s: State, step: Step): State
    requires Enabled(s, step)
  {
    match step
    case Arrive(writer) =>
      s.(queue := s.queue + [writer], pingDeadline := if writer == Ping then s.now + WRITE_WAIT_MS else s.pingDeadline)
    case Fire => s.(phase := Closing, queue := s.queue + [Close])
    case Grant => s.(queue := s.queue[1..], holder := Held(s.queue[0], DeadlineOf(s, s.queue[0])))
    case WriteEnds =>
      s.(holder := Nobody, phase := if s.holder.writer == Close then Grace(s.now + CLOSE_GRACE_MS) else s.phase)
    case GraceFires => s.(phase := Spent, cancelled := true)
    case CancelEarly => s.(cancelled := true)
    case Return => s.(returned := true, phase := if s.phase.Armed? then Stopped else s.phase)
    case Pass(ms) => s.(now := s.now + ms)
  }

  const WRITERS: Machine<State, Step> := Machine(Enabled, (s, step) => if Enabled(s, step) then Apply(s, step) else s)

  // ---- the invariant

  /** A writer is in at most one place. */
  ghost predicate QueueSound(s: State) {
    && (forall i, j :: 0 <= i < j < |s.queue| ==> s.queue[i] != s.queue[j])
    && (s.holder.Held? ==> s.holder.writer !in s.queue)
    && (s.phase.Closing? <==> Waiting(s, Close))
    && (s.holder.Held? ==> s.now <= s.holder.deadline <= s.now + WRITE_WAIT_MS)
    && s.pingDeadline <= s.now + WRITE_WAIT_MS
  }

  /** How late it can be while the close frame waits behind `i` others in the queue. */
  ghost predicate CloseInTime(s: State, i: nat) {
    && i <= (if s.holder.Held? then 1 else 2)
    && s.fireAt <= s.now
    && (if s.holder.Held? then s.holder.deadline else s.now) + i * WRITE_WAIT_MS <= s.fireAt + 2 * WRITE_WAIT_MS
  }

  ghost predicate PhaseSound(s: State) {
    match s.phase
    case Armed => s.now <= s.fireAt
    case Closing =>
      && (forall i :: 0 <= i < |s.queue| && s.queue[i] == Close ==> CloseInTime(s, i))
      && (s.holder.Held? && s.holder.writer == Close ==> s.holder.deadline <= s.fireAt + 2 * WRITE_WAIT_MS)
    case Grace(due) => s.now <= due <= s.fireAt + 2 * WRITE_WAIT_MS + CLOSE_GRACE_MS
    case Spent => s.cancelled
    case Stopped => s.returned
  }

  ghost predicate Inv(s: State) {
    QueueSound(s) && PhaseSound(s)
  }

  lemma StepKeepsQueue(s: State, step: Step)
    requires Inv(s) && Enabled(s, step)
    ensures QueueSound(Apply(s, step))
  {
  }

  lemma {:induction false} DistinctSize(queue: seq<Writer>)
    requires forall i, j :: 0 <= i < j < |queue| ==> queue[i] != queue[j]
    ensures |set w | w in queue| == |queue|
  {
    if queue != [] {
      var n := |queue| - 1;
      DistinctSize(queue[..n]);
      assert (set w | w in queue) == (set w | w in queue[..n]) + {queue[n]};
    }
  }

  lemma SubsetSize(a: set<Writer>, b: set<Writer>)
    requires a <= b
    ensures |a| <= |b|
  {
    assert b == a + (b - a);
  }

  /** With three writers, at most two stand before the close frame. */
  lemma FewAhead(s: State, i: nat)
    requires QueueSound(s) && i < |s.queue| && s.queue[i] == Close
    ensures i <= (if s.holder.Held? then 1 else 2)
  {
    var waiting := set w | w in s.queue;
    var all := {Data, Ping, Close};
    forall w: Writer ensures w in all {
      match w
      case Data =>
      case Ping =>
      case Close =>
    }
    DistinctSize(s.queue);
    if s.holder.Held? {
      SubsetSize(waiting, all - {s.holder.writer});
    } else {
      SubsetSize(waiting, all);
    }
  }

  lemma CloseStaysInTime(s: State, step: Step, i: nat)
    requires Inv(s) && Enabled(s, step) && Apply(s, step).phase.Closing?
    requires i < |Apply(s, step).queue| && Apply(s, step).queue[i] == Close
    ensures CloseInTime(Apply(s, step), i)
  {
    StepKeepsQueue(s, step);
    FewAhead(Apply(s, step), i);
    match step
    case Fire =>
    case Grant => assert s.queue[i + 1] == Close && CloseInTime(s, i + 1);
    case _ => assert s.queue[i] == Close && CloseInTime(s, i);
  }

  lemma StepKeepsInv(s: State, step: Step)
    requires Inv(s) && Enabled(s, step)
    ensures Inv(Apply(s, step))
  {
    StepKeepsQueue(s, step);
    var s' := Apply(s, step);
    if s'.phase.Closing? {
      forall i | 0 <= i < |s'.queue| && s'.queue[i] == Close
        ensures CloseInTime(s', i)
      {
        CloseStaysInTime(s, step, i);
      }
      if step.Grant? && s.queue[0] == Close {
        assert CloseInTime(s, 0);
      }
    }
  }

  lemma ReachableInv(armedAt: nat, maxDuration: nat, s: State)
    requires Reachable(WRITERS, Initial(armedAt, maxDuration), s)
    ensures Inv(s) && s.fireAt == armedAt + maxDuration
  {
    var inv := (s: State) => Inv(s) && s.fireAt == armedAt + maxDuration;
    forall x, step | inv(x) && WRITERS.enabled(x, step) ensures inv(WRITERS.apply(x, step)) {
      StepKeepsInv(x, step);
    }
    ReachableKeeps(WRITERS, inv, Initial(armedAt, maxDuration), s);
  }

  /** For every schedule of data, ping and close writers: past the cap, the session's context is cancelled or Run
      has returned. */
  lemma SessionIsCapped(armedAt: nat, maxDuration: nat, s: State)
    requires Reachable(WRITERS, Initial(armedAt, maxDuration), s)
    ensures s.now > armedAt + maxDuration + 2 * 10_000 + 5_000 ==> s.cancelled || s.returned
  {
    ReachableInv(armedAt, maxDuration, s);
    if s.phase.Closing? && !(s.holder.Held? && s.holder.writer == Close) {
      var i :| 0 <= i < |s.queue| && s.queue[i] == Close;
      assert CloseInTime(s, i);
    }
  }

  // ---- time does not stop at the cap

  /** Every writer in line gets its turn, in no time if need be. */
  lemma {:induction false} QueueDrains(start: State, x: State) returns (s: State)
    requires Reachable(WRITERS, start, x) && Inv(x)
    ensures Reachable(WRITERS, start, s) && Inv(s) && s.now == x.now && s.fireAt == x.fireAt
    ensures s.holder.Nobody? && s.queue == [] && (s.phase.Armed? ==> x.phase.Armed?)
    decreases |x.queue|, if x.holder.Held? then 1 else 0
  {
    if x.holder.Held? {
      StepKeepsInv(x, WriteEnds);
      s := Go(WRITERS, start, x, WriteEnds);
      s := QueueDrains(start, s);
    } else if x.queue != [] {
      StepKeepsInv(x, Grant);
      s := Go(WRITERS, start, x, Grant);
      s := QueueDrains(start, s);
    } else {
      s := x;
    }
  }

  /** No state is a dead end: from every one of them time can go on, whatever is due. */
  lemma TimeGoesOn(armedAt: nat, maxDuration: nat, s: State) returns (later: State)
    requires Reachable(WRITERS, Initial(armedAt, maxDuration), s)
    ensures Reachable(WRITERS, s, later) && later.now > s.now
  {
    ReachableInv(armedAt, maxDuration, s);
    Stay(WRITERS, s);
    later := QueueDrains(s, s);
    if later.phase.Armed? && later.now == later.fireAt {
      StepKeepsInv(later, Fire);
      later := Go(WRITERS, s, later, Fire);
      later := QueueDrains(s, later);
    }
    later := AMillisecondPasses(s, later);
  }

  lemma AMillisecondPasses(start: State, x: State) returns (s: State)
    requires Reachable(WRITERS, start, x) && Inv(x) && x.holder.Nobody? && x.queue == []
    requires x.phase.Armed? ==> x.now < x.fireAt
    ensures Reachable(WRITERS, start, s) && s.now == x.now + 1
  {
    s := x;
    if x.phase.Grace? && x.now == x.phase.due {
      s := Go(WRITERS, start, x, GraceFires);
    }
    s := Go(WRITERS, start, s, Pass(1));
  }

  // ---- the cap is the best possible

  /** A ping that just got the mutex and a data frame queued behind it delay the cancel to the cap exactly. */
  lemma CapIsAttained(armedAt: nat, maxDuration: nat) returns (s: State)
    ensures Reachable(WRITERS, Initial(armedAt, maxDuration), s)
    ensures s.now == armedAt + maxDuration + 2 * 10_000 + 5_000 && !s.cancelled && !s.returned
  {
    var start := Initial(armedAt, maxDuration);
    Stay(WRITERS, start);
    s := Go(WRITERS, start, start, Pass(maxDuration));
    s := Go(WRITERS, start, s, Arrive(Ping));
    s := Go(WRITERS, start, s, Grant);
    s := Go(WRITERS, start, s, Arrive(Data));
    s := Go(WRITERS, start, s, Fire);
    s := Go(WRITERS, start, s, Pass(WRITE_WAIT_MS));
    s := Go(WRITERS, start, s, WriteEnds);
    s := Go(WRITERS, start, s, Grant);
    s := Go(WRITERS, start, s, Pass(WRITE_WAIT_MS));
    s := Go(WRITERS, start, s, WriteEnds);
    s := Go(WRITERS, start, s, Grant);
    s := Go(WRITERS, start, s, WriteEnds);
    s := Go(WRITERS, start, s, Pass(CLOSE_GRACE_MS));
  }
}
