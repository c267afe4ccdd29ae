/** A busy server: whatever the other connections go on requesting and cancelling, the forwards of a connection that has
    ended are closed. */
module ForwardReclaim {
  import opened ForwardRegistry
  import opened ForwardGuards
  import opened ForwardDrain
  import opened Fairness
  import opened Runs

  /** The goroutine that has the fate of open listener `l` in hand: its guard while it is in the table, else the one
      that carries it to registration or to its close. */
  predicate Keeper(s: Registry, t: int, l: nat)
    requires l < |s.listeners|
  {
    0 <= t < |s.threads| && if InTable(s, l) then Guards(s.threads[t], l) else Carries(s.threads[t], l)
  }

  /** How far it is from closing it. */
  function Stage(th: Thread): nat {
    match th
    case Bound(_) => 5
    case Registered(_) => 4
    case Watching(_) => 3
    case Closing(_, _) => 2
    case Unregistered(_, _) => 1
    case _ => 0
  }

  function FirstKeeper(s: Registry, l: nat, from: nat): (t: int)
    requires l < |s.listeners| && from <= |s.threads|
    ensures t == -1 || Keeper(s, t, l)
    ensures t == -1 ==> forall u :: from <= u < |s.threads| ==> !Keeper(s, u, l)
    decreases |s.threads| - from
  {
    if from == |s.threads| then -1 else if Keeper(s, from, l) then from else FirstKeeper(s, l, from + 1)
  }

  lemma KeeperExists(p: Platform, s: Registry, l: nat)
    requires Inv(p, s) && l < |s.listeners| && s.listeners[l].open
    ensures Keeper(s, FirstKeeper(s, l, 0), l)
  {
    if InTable(s, l) {
      assert Guarded(s, s.table[s.listeners[l].key]);
      var t :| 0 <= t < |s.threads| && Guards(s.threads[t], l);
      assert Keeper(s, t, l);
    } else {
      var t :| 0 <= t < |s.threads| && Carries(s.threads[t], l);
      assert Keeper(s, t, l);
    }
  }

  lemma KeeperIsUnique(p: Platform, s: Registry, l: nat, t: nat, u: nat)
    requires Guardly(p, s) && l < |s.listeners| && Keeper(s, t, l) && Keeper(s, u, l)
    ensures t == u
  {
  }

  lemma KeeperIsAble(p: Platform, s: Registry, l: nat, t: nat)
    requires Inv(p, s) && l < |s.listeners| && s.listeners[l].conn in s.ended && Keeper(s, t, l)
    ensures Able(s, t) && 0 < Stage(s.threads[t])
  {
  }

  /** Its own step brings it closer. */
  lemma KeeperMoves(p: Platform, s: Registry, l: nat, t: nat, action: Action)
    requires Inv(p, s) && l < |s.listeners| && s.listeners[l].open && Keeper(s, t, l)
    requires CanAct(p, s, s.threads[t], action)
    ensures var s' := DoAct(p, s, t, action);
      !s'.listeners[l].open || exists u :: Keeper(s', u, l) && Stage(s'.threads[u]) < Stage(s.threads[t])
  {
    var s' := DoAct(p, s, t, action);
    assert ThreadSound(s, s.threads[t]);
    if s'.listeners[l].open {
      var u := if action.SpawnWatcher? then |s.threads| else t;
      assert Keeper(s', u, l) && Stage(s'.threads[u]) < Stage(s.threads[t]);
    }
  }

  /** Nobody else's step takes it further away. */
  lemma OthersMove(p: Platform, s: Registry, l: nat, t: nat, step: Step)
    requires Inv(p, s) && !p.spuriousAccept && l < |s.listeners| && s.listeners[l].open && Keeper(s, t, l)
    requires Enabled(p, s, step) && (step.Act? ==> step.t != t)
    ensures var s' := Apply(p, s, step);
      && l < |s'.listeners| && s'.listeners[l].open
      && (|| (Keeper(s', t, l) && s'.threads[t] == s.threads[t])
          || exists u :: Keeper(s', u, l) && Stage(s'.threads[u]) < Stage(s.threads[t]))
  {
    var s' := Apply(p, s, step);
    assert ThreadSound(s, s.threads[t]);
    if step.Act? {
      var th, keeper := s.threads[step.t], s.threads[t];
      assert ThreadSound(s, th);
      assert !(Carries(th, l) && Carries(keeper, l));
      match step.action {
        case Register => RegisterFindsKeyFree(p, s, step.t);
        case Unregister =>
          if InTable(s, l) && th.key == s.listeners[l].key {
            assert Keeper(s', step.t, l) && Stage(s'.threads[step.t]) == 1;
          }
        case _ =>
      }
    }
  }

  // ---- fair runs

  predicate Closed(s: Registry, l: nat) {
    l < |s.listeners| && !s.listeners[l].open
  }

  function Helpful(s: Registry, l: nat): int {
    if l < |s.listeners| then FirstKeeper(s, l, 0) else -1
  }

  function Rank(s: Registry, l: nat): nat {
    if l >= |s.listeners| || !s.listeners[l].open || FirstKeeper(s, l, 0) == -1 then 0
    else Stage(s.threads[FirstKeeper(s, l, 0)])
  }

  /** One keeper fixes helper and rank. */
  lemma KeeperRanks(p: Platform, s: Registry, l: nat, t: nat)
    requires Guardly(p, s) && l < |s.listeners| && s.listeners[l].open && Keeper(s, t, l)
    ensures Helpful(s, l) == t && Rank(s, l) == Stage(s.threads[t])
  {
    KeeperExists(p, s, l);
    KeeperIsUnique(p, s, l, t, FirstKeeper(s, l, 0));
  }

  /** The connection of listener `l` has ended. */
  ghost predicate OwnerGone(s: Registry, l: nat) {
    l < |s.listeners| && s.listeners[l].conn in s.ended
  }

  lemma StepDescends(p: Platform, s: Registry, step: Step, l: nat)
    requires Guardly(p, s) && !p.spuriousAccept && Enabled(p, s, step)
    requires OwnerGone(s, l) && s.listeners[l].open
    ensures var s' := Apply(p, s, step);
      && Able(s, Helpful(s, l))
      && (|| Rank(s', l) < Rank(s, l)
          || (Rank(s', l) == Rank(s, l) && Helpful(s', l) == Helpful(s, l) != Mover(Take(step))))
  {
    var s' := Apply(p, s, step);
    KeeperExists(p, s, l);
    var t := FirstKeeper(s, l, 0);
    KeeperIsAble(p, s, l, t);
    StepKeepsInv(p, s, step);
    StepKeepsGuardsDistinct(p, s, step);
    if step.Act? && step.t == t {
      KeeperMoves(p, s, l, t, step.action);
    } else {
      OthersMove(p, s, l, t, step);
    }
    if s'.listeners[l].open {
      if Keeper(s', t, l) && s'.threads[t] == s.threads[t] {
        KeeperRanks(p, s', l, t);
      } else {
        var u :| Keeper(s', u, l) && Stage(s'.threads[u]) < Stage(s.threads[t]);
        KeeperRanks(p, s', l, u);
      }
    }
  }

  lemma {:induction false} OwnerStaysGone(
    p: Platform, run: nat -> Registry, choice: nat -> Choice<Step>, i: nat, j: nat, l: nat)
    requires IsRun(Forwards(p), run, choice) && OwnerGone(run(i), l) && i <= j
    ensures OwnerGone(run(j), l)
    decreases j
  {
    if i < j {
      OwnerStaysGone(p, run, choice, i, j - 1, l);
      assert IsInstant(Forwards(p), run, choice, j - 1);
    }
  }

  /** In every weakly fair run, other connections opening and cancelling forwards forever, each listener whose own
      connection has ended is eventually closed. */
  lemma EndedForwardIsClosed(p: Platform, run: nat -> Registry, choice: nat -> Choice<Step>, i: nat, l: nat)
    returns (n: nat)
    requires IsRun(Forwards(p), run, choice) && Reachable(Forwards(p), EMPTY, run(0)) && !p.spuriousAccept
    requires WeaklyFair(run, i => Mover(choice(i)), Able)
    requires OwnerGone(run(i), l)
    ensures i <= n && Closed(run(n), l)
  {
    ReachableGuards(p, run(0));
    var inv := (s: Registry) => Guardly(p, s);
    forall x, step | inv(x) && Forwards(p).enabled(x, step) ensures inv(Forwards(p).apply(x, step)) {
      StepKeepsInv(p, x, step);
      StepKeepsGuardsDistinct(p, x, step);
    }
    var mover := (i: nat) => Mover(choice(i));
    var over, rank := (s: Registry) => Closed(s, l), (s: Registry) => Rank(s, l);
    var helpful := (s: Registry) => Helpful(s, l);
    forall j: nat | i <= j ensures Descends(run, mover, Able, over, rank, helpful, j) {
      InstantKeeps(Forwards(p), inv, run, choice, j);
      OwnerStaysGone(p, run, choice, i, j, l);
      assert IsInstant(Forwards(p), run, choice, j);
      if run(j).listeners[l].open {
        InstantDescends(p, run(j), choice(j), run(j + 1), l);
      }
    }
    n := FairRunsEnd(run, mover, Able, over, rank, helpful, i);
  }

  lemma InstantDescends(p: Platform, s: Registry, choice: Choice<Step>, s': Registry, l: nat)
    requires Guardly(p, s) && !p.spuriousAccept && OwnerGone(s, l) && s.listeners[l].open
    requires if choice.Idle? then s' == s else Enabled(p, s, choice.step) && s' == Apply(p, s, choice.step)
    ensures Able(s, Helpful(s, l))
    ensures || Rank(s', l) < Rank(s, l)
            || (Rank(s', l) == Rank(s, l) && Helpful(s', l) == Helpful(s, l) != Mover(choice))
  {
    if choice.Take? {
      StepDescends(p, s, choice.step, l);
    } else {
      KeeperExists(p, s, l);
      KeeperIsAble(p, s, l, FirstKeeper(s, l, 0));
    }
  }

  // ---- and its goroutines return

  /** A goroutine at work for listener `l`, or closing something on whoever's behalf. */
  predicate Serves(th: Thread, l: nat) {
    match th
    case Opening(_, _, _) => false
    case Closing(_, _) => true
    case Unregistered(_, _) => true
    case Finished => true
    case _ => th.listener == l
  }

  /** With the listener closed and its connection ended, nothing keeps such a goroutine waiting, and every step of its
      own brings it closer to its return. */
  lemma ServantDescends(p: Platform, s: Registry, choice: Choice<Step>, s': Registry, t: nat, l: nat)
    requires Inv(p, s) && OwnerGone(s, l) && Closed(s, l) && t < |s.threads| && Serves(s.threads[t], l)
    requires if choice.Idle? then s' == s else Enabled(p, s, choice.step) && s' == Apply(p, s, choice.step)
    ensures s.threads[t].Finished? || Able(s, t)
    ensures t < |s'.threads| && Serves(s'.threads[t], l)
    ensures if Mover(choice) == t then Weight(s'.threads[t]) < Weight(s.threads[t]) else s'.threads[t] == s.threads[t]
  {
    assert ThreadSound(s, s.threads[t]);
  }

  lemma {:induction false} StaysClosed(
    p: Platform, run: nat -> Registry, choice: nat -> Choice<Step>, i: nat, j: nat, t: nat, l: nat)
    requires IsRun(Forwards(p), run, choice) && Reachable(Forwards(p), EMPTY, run(0)) && !p.spuriousAccept && i <= j
    requires OwnerGone(run(i), l) && Closed(run(i), l) && t < |run(i).threads| && Serves(run(i).threads[t], l)
    ensures Inv(p, run(j)) && OwnerGone(run(j), l) && Closed(run(j), l)
    ensures t < |run(j).threads| && Serves(run(j).threads[t], l)
    decreases j
  {
    InvAt(p, run, choice, j);
    if i < j {
      StaysClosed(p, run, choice, i, j - 1, t, l);
      OwnerStaysGone(p, run, choice, i, j, l);
      assert IsInstant(Forwards(p), run, choice, j - 1);
      ServantDescends(p, run(j - 1), choice(j - 1), run(j), t, l);
      if choice(j - 1).Take? {
        ClosedStays(p, run(j - 1), choice(j - 1).step, l);
      }
    }
  }

  lemma ClosedStays(p: Platform, s: Registry, step: Step, l: nat)
    requires Enabled(p, s, step) && Closed(s, l)
    ensures Closed(Apply(p, s, step), l)
  {
  }

  lemma InvAt(p: Platform, run: nat -> Registry, choice: nat -> Choice<Step>, j: nat)
    requires IsRun(Forwards(p), run, choice) && Reachable(Forwards(p), EMPTY, run(0)) && !p.spuriousAccept
    ensures Inv(p, run(j))
  {
    ReachableInv(p, run(0));
    var inv := (s: Registry) => Inv(p, s);
    forall x, step | inv(x) && Forwards(p).enabled(x, step) ensures inv(Forwards(p).apply(x, step)) {
      StepKeepsInv(p, x, step);
    }
    InstantKeeps(Forwards(p), inv, run, choice, j);
  }

  /** Until the listener is closed, a goroutine at work for it remains one. */
  lemma {:induction false} KeepsServing(
    p: Platform, run: nat -> Registry, choice: nat -> Choice<Step>, i: nat, j: nat, t: nat, l: nat)
    requires IsRun(Forwards(p), run, choice) && i <= j && t < |run(i).threads| && Serves(run(i).threads[t], l)
    ensures t < |run(j).threads| && Serves(run(j).threads[t], l)
    decreases j
  {
    if i < j {
      KeepsServing(p, run, choice, i, j - 1, t, l);
      assert IsInstant(Forwards(p), run, choice, j - 1);
      if choice(j - 1).Take? {
        StepKeepsServing(p, run(j - 1), choice(j - 1).step, t, l);
      }
    }
  }

  lemma StepKeepsServing(p: Platform, s: Registry, step: Step, t: nat, l: nat)
    requires Enabled(p, s, step) && t < |s.threads| && Serves(s.threads[t], l)
    ensures t < |Apply(p, s, step).threads| && Serves(Apply(p, s, step).threads[t], l)
  {
  }

  /** In a busy server too, every goroutine at work for a listener whose connection has ended returns: request, watcher,
      closer and accept loop. */
  lemma EndedForwardIsForgotten(
    p: Platform, run: nat -> Registry, choice: nat -> Choice<Step>, i: nat, t: nat, l: nat) returns (n: nat)
    requires IsRun(Forwards(p), run, choice) && Reachable(Forwards(p), EMPTY, run(0)) && !p.spuriousAccept
    requires WeaklyFair(run, i => Mover(choice(i)), Able)
    requires OwnerGone(run(i), l) && t < |run(i).threads| && Serves(run(i).threads[t], l)
    ensures i <= n && t < |run(n).threads| && run(n).threads[t].Finished?
  {
    var closed := EndedForwardIsClosed(p, run, choice, i, l);
    OwnerStaysGone(p, run, choice, i, closed, l);
    KeepsServing(p, run, choice, i, closed, t, l);
    var mover := (i: nat) => Mover(choice(i));
    var over := (s: Registry) => t < |s.threads| && s.threads[t].Finished?;
    var rank := (s: Registry) => if t < |s.threads| then Weight(s.threads[t]) else 0;
    var helpful := (s: Registry) => t as int;
    forall j: nat | closed <= j ensures Descends(run, mover, Able, over, rank, helpful, j) {
      StaysClosed(p, run, choice, closed, j, t, l);
      assert IsInstant(Forwards(p), run, choice, j);
      ServantDescends(p, run(j), choice(j), run(j + 1), t, l);
    }
    n := FairRunsEnd(run, mover, Able, over, rank, helpful, closed);
  }
}
