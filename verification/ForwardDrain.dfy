/** Reverse forwards do not leak: what is left of the table once connections have ended. */
module ForwardDrain {
  import opened ForwardRegistry
  import opened ForwardKeys
  import opened ForwardRuns
  import opened Counting
  import opened Fairness
  import opened Runs

  // ---- the two ends of a run

  /** A wildcard request is bound to 127.0.0.1 whatever it asked for, any other only if it names loopback itself. */
  ghost predicate LoopbackOnly(p: Platform, x: Listener) {
    if x.host in {"", "*", "0.0.0.0", "::"} then x.addr == p.resolve("127.0.0.1")
    else p.isLoopback(x.host) && x.addr == p.resolve(x.host)
  }

  /** What a reader of the table may rely on in any reachable state: every entry is an open listener under its
      requested host and bound port, every listener is on loopback, and every open one is in the table or else carried
      by exactly the goroutine that is about to register or to close it. */
  lemma TableAgreesWithSockets(p: Platform, s: Registry)
    requires Reachable(Forwards(p), EMPTY, s) && !p.spuriousAccept
    ensures forall k :: k in s.table ==>
      && s.table[k] < |s.listeners| && s.listeners[s.table[k]].open && s.listeners[s.table[k]].registered
      && k == ForwardKey(s.listeners[s.table[k]].host, s.listeners[s.table[k]].port)
    ensures forall l :: 0 <= l < |s.listeners| ==> LoopbackOnly(p, s.listeners[l])
    ensures forall l :: 0 <= l < |s.listeners| && s.listeners[l].open ==> (InTable(s, l) <==> !Carried(s, l))
  {
    ReachableInv(p, s);
    forall k | k in s.table
      ensures k == ForwardKey(s.listeners[s.table[k]].host, s.listeners[s.table[k]].port)
    {
      assert ListenerSound(p, s, s.table[k]);
    }
    forall l | 0 <= l < |s.listeners| ensures LoopbackOnly(p, s.listeners[l]) {
      assert ListenerSound(p, s, l);
    }
    forall l | 0 <= l < |s.listeners| && s.listeners[l].open
      ensures InTable(s, l) <==> !Carried(s, l)
    {
      if t :| 0 <= t < |s.threads| && Carries(s.threads[t], l) {
        assert ThreadSound(s, s.threads[t]);
      }
    }
  }

  predicate AllFinished(s: Registry) {
    forall t :: 0 <= t < |s.threads| ==> s.threads[t].Finished?
  }

  /** Only accept loops are left. */
  predicate OnlyAcceptLoops(s: Registry) {
    forall t :: 0 <= t < |s.threads| ==> s.threads[t].Finished? || s.threads[t].Accepting? || s.threads[t].Leaving?
  }

  /** When every request, watcher and close has returned, nothing is left: no entry and no open socket, however keys
      were cancelled and taken again on the way. */
  lemma QuiescenceIsEmpty(p: Platform, s: Registry)
    requires Reachable(Forwards(p), EMPTY, s) && !p.spuriousAccept && OnlyAcceptLoops(s)
    ensures s.table == map[]
    ensures forall l :: 0 <= l < |s.listeners| ==> !s.listeners[l].open
  {
    ReachableInv(p, s);
    NothingLeft(p, s);
  }

  lemma NothingLeft(p: Platform, s: Registry)
    requires Inv(p, s) && OnlyAcceptLoops(s)
    ensures s.table == map[]
    ensures forall l :: 0 <= l < |s.listeners| ==> !s.listeners[l].open
  {
    assert forall l: nat :: !Guarded(s, l) && !Carried(s, l);
    assert s.table.Keys == {};
  }

  // ---- connections gone, no new requests: the goroutines return

  predicate OwnersGone(s: Registry) {
    && (forall l :: 0 <= l < |s.listeners| ==> s.listeners[l].conn in s.ended)
    && (forall t :: 0 <= t < |s.threads| && s.threads[t].Opening? ==> s.threads[t].conn in s.ended)
  }

  /** Goroutine `t` is not waiting for anything but the processor. */
  predicate Able(s: Registry, t: int) {
    && 0 <= t < |s.threads|
    && match s.threads[t]
       case Finished => false
       case Watching(l) => l < |s.listeners| && s.listeners[l].conn in s.ended
       case Accepting(l) => !(l < |s.listeners| && s.listeners[l].open)
       case _ => true
  }

  /** It is able only if it has a step to take. */
  lemma AbleCanAct(p: Platform, s: Registry, t: nat)
    requires Inv(p, s) && Able(s, t)
    ensures exists action :: CanAct(p, s, s.threads[t], action)
  {
    assert ThreadSound(s, s.threads[t]);
    var action := match s.threads[t]
      case Opening(_, _, _) => Refuse
      case Bound(_) => Register
      case Registered(_) => SpawnWatcher
      case Spawned(_) => SpawnAcceptLoop
      case Watching(_) => Wake
      case Closing(_, _) => Unregister
      case Unregistered(_, _) => CloseListener
      case Accepting(_) => AcceptError
      case Leaving(_) => LeaveAcceptLoop
      case Finished => Accept;
    assert CanAct(p, s, s.threads[t], action);
  }

  function Weight(th: Thread): nat {
    match th
    case Opening(_, _, _) => 9
    case Bound(_) => 8
    case Registered(_) => 7
    case Spawned(_) => 3
    case Watching(_) => 3
    case Closing(_, _) => 2
    case Unregistered(_, _) => 1
    case Accepting(_) => 2
    case Leaving(_) => 1
    case Finished => 0
  }

  function Work(threads: seq<Thread>): nat {
    Total(threads, Weight)
  }

  lemma ThreadMoved(p: Platform, s: Registry, t: nat, action: Action)
    requires t < |s.threads| && CanAct(p, s, s.threads[t], action) && !action.Accept?
    ensures var after := DoAct(p, s, t, action).threads;
      && |s.threads| <= |after| <= |s.threads| + 1
      && after == s.threads[t := after[t]] + after[|s.threads|..]
      && Weight(after[t]) + (if |after| > |s.threads| then Weight(after[|s.threads|]) else 0) < Weight(s.threads[t])
  {
  }

  /** Every action of a goroutine but a successful Accept uses up work, and that one changes nothing. */
  lemma ActionUsesWork(p: Platform, s: Registry, t: nat, action: Action)
    requires t < |s.threads| && CanAct(p, s, s.threads[t], action)
    ensures if action.Accept? then DoAct(p, s, t, action) == s
            else Work(DoAct(p, s, t, action).threads) < Work(s.threads)
  {
    if !action.Accept? {
      ThreadMoved(p, s, t, action);
      WorkMoved(s.threads, t, DoAct(p, s, t, action).threads);
    }
  }

  lemma WorkMoved(before: seq<Thread>, t: nat, after: seq<Thread>)
    requires t < |before| <= |after| <= |before| + 1
    requires after == before[t := after[t]] + after[|before|..]
    requires Weight(after[t]) + (if |after| > |before| then Weight(after[|before|]) else 0) < Weight(before[t])
    ensures Work(after) < Work(before)
  {
    TotalUpdate(before, t, after[t], Weight);
    if |after| > |before| {
      assert after == before[t := after[t]] + [after[|before|]];
      TotalAppend(before[t := after[t]], after[|before|], Weight);
    } else {
      assert after == before[t := after[t]];
    }
  }

  function FirstAble(s: Registry, from: nat): (t: int)
    requires from <= |s.threads|
    ensures t == -1 || (from <= t && Able(s, t))
    ensures t == -1 ==> forall u :: from <= u < |s.threads| ==> !Able(s, u)
    decreases |s.threads| - from
  {
    if from == |s.threads| then -1 else if Able(s, from) then from else FirstAble(s, from + 1)
  }

  /** No deadlock: with all owners gone, some goroutine can move unless all have returned. */
  lemma SomeoneIsAble(p: Platform, s: Registry)
    requires Inv(p, s) && OwnersGone(s) && !AllFinished(s)
    ensures Able(s, FirstAble(s, 0))
  {
    var t :| 0 <= t < |s.threads| && !s.threads[t].Finished?;
    if !Able(s, t) {
      var l := s.threads[t].listener;
      if InTable(s, l) {
        var u :| 0 <= u < |s.threads| && Guards(s.threads[u], s.table[s.listeners[l].key]);
        assert Able(s, u);
      } else {
        var u :| 0 <= u < |s.threads| && Carries(s.threads[u], l);
        assert Able(s, u);
      }
    }
  }

  /** The machine once no request, cancel or end of connection happens any more. */
  function Quiet(p: Platform): Machine<Registry, Step> {
    Machine((s: Registry, step: Step) => step.Act? && Enabled(p, s, step),
            (s, step) => if Enabled(p, s, step) then Apply(p, s, step) else s)
  }

  function Mover(choice: Choice<Step>): int {
    if choice.Take? && choice.step.Act? then choice.step.t else -1
  }

  ghost predicate Draining(p: Platform, s: Registry) {
    Inv(p, s) && OwnersGone(s)
  }

  /** Once every connection has ended and no request arrives any more, every weakly fair run empties the table
      and closes every listener ever opened. */
  lemma ForwardsDrain(p: Platform, run: nat -> Registry, choice: nat -> Choice<Step>) returns (n: nat)
    requires IsRun(Quiet(p), run, choice) && !p.spuriousAccept
    requires Reachable(Forwards(p), EMPTY, run(0)) && OwnersGone(run(0))
    requires WeaklyFair(run, i => Mover(choice(i)), Able)
    ensures run(n).table == map[]
    ensures forall l :: 0 <= l < |run(n).listeners| ==> !run(n).listeners[l].open
    ensures AllFinished(run(n))
  {
    ReachableInv(p, run(0));
    var inv := (s: Registry) => Draining(p, s);
    forall x, step | inv(x) && Quiet(p).enabled(x, step) ensures inv(Quiet(p).apply(x, step)) {
      StepKeepsInv(p, x, step);
    }
    var mover := (i: nat) => Mover(choice(i));
    var rank := (s: Registry) => Work(s.threads);
    var helpful := (s: Registry) => FirstAble(s, 0);
    forall i: nat
      ensures Descends(run, mover, Able, AllFinished, rank, helpful, i)
    {
      InstantKeeps(Quiet(p), inv, run, choice, i);
      assert IsInstant(Quiet(p), run, choice, i);
      if !AllFinished(run(i)) {
        SomeoneIsAble(p, run(i));
        if choice(i).Take? {
          ActionUsesWork(p, run(i), choice(i).step.t, choice(i).step.action);
        }
      }
    }
    n := FairRunsEnd(run, mover, Able, AllFinished, rank, helpful, 0);
    InstantKeeps(Quiet(p), inv, run, choice, n);
    NothingLeft(p, run(n));
  }

  // ---- why Accept must fail only on a closed listener

  /** With that assumption the deferred delete of an accept loop never removes anything. */
  lemma AcceptLoopRemovesNothing(p: Platform, s: Registry, t: nat)
    requires Reachable(Forwards(p), EMPTY, s) && !p.spuriousAccept && Enabled(p, s, Act(t, LeaveAcceptLoop))
    ensures DoAct(p, s, t, LeaveAcceptLoop).table == s.table
  {
    ReachableInv(p, s);
    assert ThreadSound(s, s.threads[t]);
  }

  /** An open listener that neither the table nor any goroutine refers to for closing. */
  ghost predicate Orphaned(s: Registry, l: nat) {
    && l < |s.listeners| && s.listeners[l].open
    && (forall k :: k in s.table ==> s.table[k] != l)
    && !Carried(s, l)
  }

  /** The same platform before its first spurious error. */
  function Reliable(p: Platform): Platform {
    p.(spuriousAccept := false)
  }

  lemma ReliableRunsAreRuns(p: Platform, s: Registry)
    requires Reachable(Forwards(Reliable(p)), EMPTY, s)
    ensures Reachable(Forwards(p), EMPTY, s)
  {
    forall x, step | Forwards(Reliable(p)).enabled(x, step)
      ensures Forwards(p).enabled(x, step) && Forwards(p).apply(x, step) == Forwards(Reliable(p)).apply(x, step)
    {
      assert Enabled(p, x, step) && Apply(p, x, step) == Apply(Reliable(p), x, step);
    }
    ReachableWithin(Forwards(Reliable(p)), Forwards(p), EMPTY, s);
  }

  /** Without it a listener leaks: in every state reached so far without such an error, any accept loop whose listener
      is in the table can orphan it by one failed Accept. */
  lemma SpuriousErrorOrphans(p: Platform, s: Registry, t: nat) returns (s': Registry)
    requires Reachable(Forwards(Reliable(p)), EMPTY, s) && p.spuriousAccept
    requires t < |s.threads| && s.threads[t].Accepting? && s.threads[t].listener < |s.listeners|
    requires InTable(s, s.threads[t].listener)
    ensures Reachable(Forwards(p), EMPTY, s') && Orphaned(s', s.threads[t].listener)
  {
    var l := s.threads[t].listener;
    ReachableInv(Reliable(p), s);
    ReliableRunsAreRuns(p, s);
    s' := Go(Forwards(p), EMPTY, s, Act(t, AcceptError));
    s' := Go(Forwards(p), EMPTY, s', Act(t, LeaveAcceptLoop));
    if u :| 0 <= u < |s'.threads| && Carries(s'.threads[u], l) {
      assert s'.threads[u] == s.threads[u];
      assert ThreadSound(s, s.threads[u]);
    }
  }

  ghost predicate CanOrphan(p: Platform) {
    exists s, l: nat :: Reachable(Forwards(p), EMPTY, s) && Orphaned(s, l)
  }

  /** From nothing: one forward is opened, and its first Accept fails. */
  lemma FirstAcceptOrphans(p: Platform, host: string, port: nat) returns (s: Registry)
    requires p.spuriousAccept && p.isLoopback(BindHost(host)) && 0 < port <= MAX_PORT
    ensures Reachable(Forwards(p), EMPTY, s) && Orphaned(s, 0)
  {
    var q, none := Reliable(p), (key: string) => false;
    Stay(Allowing(q, none), EMPTY);
    s := RegisterOne(q, none, EMPTY, 1, host, port);
    s := Acts(q, none, s, 0, SpawnWatcher);
    s := Acts(q, none, s, 0, SpawnAcceptLoop);
    AllowedRunsAreRuns(q, none, EMPTY, s);
    s := SpuriousErrorOrphans(p, s, 2);
  }

  /** The assumption on Accept is exactly what is needed: wherever anything can be forwarded at all, some run leaks a
      listener if and only if Accept may fail on one that nobody closed. */
  lemma LeaksIff(p: Platform, host: string, port: nat)
    requires p.isLoopback(BindHost(host)) && 0 < port <= MAX_PORT
    ensures p.spuriousAccept <==> CanOrphan(p)
  {
    if p.spuriousAccept {
      var s := FirstAcceptOrphans(p, host, port);
    } else {
      forall s, l: nat | Reachable(Forwards(p), EMPTY, s) ensures !Orphaned(s, l) {
        ReachableInv(p, s);
      }
    }
  }

  lemma StepKeepsOrphan(p: Platform, s: Registry, step: Step, l: nat)
    requires Orphaned(s, l) && Enabled(p, s, step)
    ensures Orphaned(Apply(p, s, step), l)
  {
    var s' := Apply(p, s, step);
    forall u | 0 <= u < |s'.threads| ensures !Carries(s'.threads[u], l) {
      assert u < |s.threads| ==> !Carries(s.threads[u], l);
    }
  }

  /** And it leaks for good: no cancel, no watcher and no end of connection ever closes it. */
  lemma OrphansStayOpen(p: Platform, s: Registry, later: Registry, l: nat)
    requires Orphaned(s, l) && Reachable(Forwards(p), s, later)
    ensures Orphaned(later, l)
  {
    var inv := (s: Registry) => Orphaned(s, l);
    forall x, step | inv(x) && Forwards(p).enabled(x, step) ensures inv(Forwards(p).apply(x, step)) {
      StepKeepsOrphan(p, x, step, l);
    }
    ReachableKeeps(Forwards(p), inv, s, later);
  }
}
