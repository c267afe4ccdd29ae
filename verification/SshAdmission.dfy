/** Admission to the SSH server: `acquireSession` and `releaseSession` of internal/sshserver/server.go, an atomic
    counter that is raised first and lowered again when it went too far, for any number of sessions. */
module SshAdmission {
  import opened Counting
  import opened Fairness
  import opened Runs

  datatype Session = Entering | Undoing | Rejected | Holding | Gone

  datatype State = State(maxSessions: int, counter: int, sessions: seq<Session>)

  function Initial(maxSessions: int): State {
    State(maxSessions, 0, [])
  }

  datatype Act = Add | Undo | Release

  datatype Step = Arrive | By(t: nat, act: Act)

  predicate CanAct(x: Session, act: Act) {
    match act
    case Add => x.Entering?
    case Undo => x.Undoing?
    case Release => x.Holding?
  }

  predicate Enabled(s: State, step: Step) {
    match step
    case Arrive => true
    case By(t, act) => t < |s.sessions| && CanAct(s.sessions[t], act)
  }

  predicate Limited(s: State) {
    s.maxSessions > 0
  }

  function Next(s: State, act: Act): Session {
    match act
    case Add => if Limited(s) && s.counter + 1 > s.maxSessions then Undoing else Holding
    case Undo => Rejected
    case Release => Gone
  }

  function Apply(s: State, step: Step): State
    requires Enabled(s, step)
  {
    match step
    case Arrive => s.(sessions := s.sessions + [Entering])
    case By(t, act) =>
      s.(sessions := s.sessions[t := Next(s, act)],
         counter := if !Limited(s) then s.counter else if act.Add? then s.counter + 1 else s.counter - 1)
  }

  const SESSIONS: Machine<State, Step> := Machine(Enabled, (s, step) => if Enabled(s, step) then Apply(s, step) else s)

  predicate IsHolding(x: Session) { x.Holding? }
  predicate IsUndoing(x: Session) { x.Undoing? }

  function Holders(s: State): nat { Count(s.sessions, IsHolding) }
  function Undoers(s: State): nat { Count(s.sessions, IsUndoing) }

  ghost predicate Inv(s: State) {
    if Limited(s) then s.counter == Holders(s) + Undoers(s) && Holders(s) <= s.maxSessions
    else s.counter == 0 && Undoers(s) == 0
  }

  lemma StepKeepsInv(s: State, step: Step)
    requires Inv(s) && Enabled(s, step)
    ensures Inv(Apply(s, step))
  {
    match step
    case Arrive =>
      CountAppend(s.sessions, Entering, IsHolding);
      CountAppend(s.sessions, Entering, IsUndoing);
    case By(t, act) =>
      CountUpdate(s.sessions, t, Next(s, act), IsHolding);
      CountUpdate(s.sessions, t, Next(s, act), IsUndoing);
  }

  lemma ReachableInv(maxSessions: int, s: State)
    requires Reachable(SESSIONS, Initial(maxSessions), s)
    ensures Inv(s) && s.maxSessions == maxSessions
  {
    var inv := (s: State) => Inv(s) && s.maxSessions == maxSessions;
    forall x, step | inv(x) && SESSIONS.enabled(x, step) ensures inv(SESSIONS.apply(x, step)) {
      StepKeepsInv(x, step);
    }
    ReachableKeeps(SESSIONS, inv, Initial(maxSessions), s);
  }

  /** In every interleaving the counter is the sessions that hold a slot plus the attempts still to be undone, and the
      holders never exceed a positive limit; with nobody in between the two are equal. */
  lemma SlotsAreBounded(maxSessions: int, s: State)
    requires maxSessions > 0 && Reachable(SESSIONS, Initial(maxSessions), s)
    ensures s.counter == Holders(s) + Undoers(s) && Holders(s) <= maxSessions
    ensures (forall t :: 0 <= t < |s.sessions| ==> !s.sessions[t].Undoing?) ==> s.counter == Holders(s)
  {
    ReachableInv(maxSessions, s);
    if forall t :: 0 <= t < |s.sessions| ==> !s.sessions[t].Undoing? {
      CountZero(s.sessions, IsUndoing);
    }
  }

  /** A session is turned away exactly when holders and attempts still to be undone together had reached the limit. */
  lemma RejectedIff(maxSessions: int, s: State, t: nat)
    requires Reachable(SESSIONS, Initial(maxSessions), s) && Enabled(s, By(t, Add))
    ensures Apply(s, By(t, Add)).sessions[t].Undoing? <==>
      maxSessions > 0 && Holders(s) + Undoers(s) >= maxSessions
  {
    ReachableInv(maxSessions, s);
  }

  /** So this counter is not an atomic one: for every limit there is a run in which a session is turned away at an
      instant when every slot is free, by attempts that are themselves about to be undone. */
  lemma RejectedThoughFree(limit: nat) returns (s: State)
    requires limit > 0
    ensures Reachable(SESSIONS, Initial(limit), s)
    ensures |s.sessions| == 2 * limit + 1 && Holders(s) == 0
    ensures Enabled(s, By(2 * limit, Add)) && Apply(s, By(2 * limit, Add)).sessions[2 * limit].Undoing?
  {
    var start := Initial(limit);
    Stay(SESSIONS, start);
    s := start;
    for i := 0 to 2 * limit + 1
      invariant Reachable(SESSIONS, start, s) && s.maxSessions == limit && s.counter == 0 && |s.sessions| == i
      invariant forall t :: 0 <= t < i ==> s.sessions[t].Entering?
    {
      s := Go(SESSIONS, start, s, Arrive);
    }
    for i := 0 to 2 * limit
      invariant Reachable(SESSIONS, start, s) && s.maxSessions == limit && s.counter == i
      invariant |s.sessions| == 2 * limit + 1
      invariant forall t :: 0 <= t < 2 * limit + 1 ==>
        s.sessions[t] == if t >= i then Entering else if t < limit then Holding else Undoing
    {
      s := Go(SESSIONS, start, s, By(i, Add));
    }
    for i := 0 to limit
      invariant Reachable(SESSIONS, start, s) && s.maxSessions == limit && s.counter == 2 * limit - i
      invariant |s.sessions| == 2 * limit + 1
      invariant forall t :: 0 <= t < 2 * limit + 1 ==>
        s.sessions[t] ==
          if t == 2 * limit then Entering else if t >= limit then Undoing else if t >= i then Holding else Gone
    {
      s := Go(SESSIONS, start, s, By(i, Release));
    }
    CountZero(s.sessions, IsHolding);
  }

  // ---- and every attempt comes to its end

  function Mover(choice: Choice<Step>): int {
    if choice.Take? && choice.step.By? then choice.step.t else -1
  }

  /** No session waits for another one; the sessions themselves come to their end. */
  predicate Able(s: State, t: int) {
    0 <= t < |s.sessions| && !Settled(s.sessions[t])
  }

  predicate Settled(x: Session) {
    x.Rejected? || x.Gone?
  }

  lemma AbleCanMove(s: State, t: nat)
    requires Able(s, t)
    ensures exists act :: Enabled(s, By(t, act))
  {
    var act := if s.sessions[t].Entering? then Add else if s.sessions[t].Undoing? then Undo else Release;
    assert Enabled(s, By(t, act));
  }

  function Left(x: Session): nat {
    if Settled(x) then 0 else if x.Entering? then 2 else 1
  }

  lemma SessionStep(s: State, step: Step, t: nat)
    requires Enabled(s, step) && t < |s.sessions|
    ensures t < |Apply(s, step).sessions|
    ensures var x := Apply(s, step).sessions[t];
      if step.By? && step.t == t then Left(x) < Left(s.sessions[t]) else x == s.sessions[t]
  {
  }

  lemma {:induction false} StaysKnown(run: nat -> State, choice: nat -> Choice<Step>, i: nat, j: nat, t: nat)
    requires IsRun(SESSIONS, run, choice) && i <= j && t < |run(i).sessions|
    ensures t < |run(j).sessions|
    decreases j
  {
    if i < j {
      StaysKnown(run, choice, i, j - 1, t);
      assert IsInstant(SESSIONS, run, choice, j - 1);
      if choice(j - 1).Take? {
        SessionStep(run(j - 1), choice(j - 1).step, t);
      }
    }
  }

  /** In every weakly fair run an attempt is undone or its slot given back. */
  lemma EveryAttemptSettles(run: nat -> State, choice: nat -> Choice<Step>, i: nat, t: nat) returns (n: nat)
    requires IsRun(SESSIONS, run, choice) && WeaklyFair(run, i => Mover(choice(i)), Able) && t < |run(i).sessions|
    ensures i <= n && t < |run(n).sessions| && (run(n).sessions[t].Rejected? || run(n).sessions[t].Gone?)
  {
    var mover := (i: nat) => Mover(choice(i));
    var over := (s: State) => t < |s.sessions| && Settled(s.sessions[t]);
    var rank := (s: State) => if t < |s.sessions| then Left(s.sessions[t]) else 0;
    var helpful := (s: State) => t as int;
    forall j: nat | i <= j ensures Descends(run, mover, Able, over, rank, helpful, j) {
      StaysKnown(run, choice, i, j, t);
      assert IsInstant(SESSIONS, run, choice, j);
      if choice(j).Take? {
        SessionStep(run(j), choice(j).step, t);
      }
    }
    n := FairRunsEnd(run, mover, Able, over, rank, helpful, i);
  }

  // ---- the counter in its own form

  /** The counter with one session at it; the others are in its value. */
  function With(maxSessions: int, counter: int, x: Session): State {
    State(maxSessions, counter, [x])
  }

  lemma AddRun(maxSessions: int, counter: int)
    ensures var full := maxSessions > 0 && counter >= maxSessions;
      Reachable(SESSIONS, With(maxSessions, counter, Entering),
                With(maxSessions, if full || maxSessions <= 0 then counter else counter + 1,
                     if full then Rejected else Holding))
  {
    var start := With(maxSessions, counter, Entering);
    Stay(SESSIONS, start);
    var s := Go(SESSIONS, start, start, By(0, Add));
    if s.sessions[0].Undoing? {
      s := Go(SESSIONS, start, s, By(0, Undo));
      assert s.sessions == [Rejected];
    } else {
      assert s.sessions == [Holding];
    }
  }

  lemma ReleaseRun(maxSessions: int, counter: int)
    ensures Reachable(SESSIONS, With(maxSessions, counter, Holding),
                      With(maxSessions, if maxSessions > 0 then counter - 1 else counter, Gone))
  {
    var start := With(maxSessions, counter, Holding);
    Stay(SESSIONS, start);
    var s := Go(SESSIONS, start, start, By(0, Release));
    assert s.sessions == [Gone];
  }

  class Sessions {
    const maxSessions: int
    var sessions: int

    ghost function View(x: Session): State
      reads this
    {
      With(maxSessions, sessions, x)
    }

    constructor (maxSessions: int)
      ensures this.maxSessions == maxSessions && sessions == 0
    {
      this.maxSessions := maxSessions;
      sessions := 0;
    }

    /** Uninterrupted, a call that fails leaves no trace and one that succeeds takes a slot below the limit; and it does
        what the machine's steps do. */
    method AcquireSession() returns (ok: bool)
      modifies this`sessions
      ensures ok <==> maxSessions <= 0 || old(sessions) < maxSessions
      ensures sessions == old(sessions) + if ok && maxSessions > 0 then 1 else 0
      ensures Reachable(SESSIONS, old(View(Entering)), View(if ok then Holding else Rejected))
    {
      AddRun(maxSessions, sessions);
      if maxSessions <= 0 {
        return true;
      }
      sessions := sessions + 1;
      if sessions > maxSessions {
        sessions := sessions - 1;
        return false;
      }
      return true;
    }

    /** Gives back what AcquireSession took. */
    method ReleaseSession()
      modifies this`sessions
      ensures sessions == old(sessions) - if maxSessions > 0 then 1 else 0
      ensures Reachable(SESSIONS, old(View(Holding)), View(Gone))
    {
      ReleaseRun(maxSessions, sessions);
      if maxSessions <= 0 {
        return;
      }
      sessions := sessions - 1;
    }
  }
}
