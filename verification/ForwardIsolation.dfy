/** Who may close whose reverse forward.  The watcher of a connection and the failure path of `startForward` close by
    key, not by listener, so a connection's forward can be closed on behalf of another when a key is taken again. */
module ForwardIsolation {
  import opened ForwardRegistry
  import opened ForwardGuards
  import opened ForwardKeys
  import opened ForwardRuns
  import opened Options
  import opened Runs

  // ---- isolation when keys are not reused

  /** No requested host and bound port were registered twice since the table was created. */
  ghost predicate KeysNotReused(s: Registry) {
    forall l, m :: 0 <= l < m < |s.listeners| && s.listeners[l].registered && s.listeners[m].registered ==>
      s.listeners[l].key != s.listeners[m].key
  }

  /** A close that is the listener's own business: a cancel naming it, its own failed start, its own connection. */
  ghost predicate OwnClose(s: Registry, l: nat)
    requires l < |s.listeners| && s.listeners[l].closedBy.Some?
  {
    match s.listeners[l].closedBy.value
    case ByCancel(host, port) => host == s.listeners[l].host && port == s.listeners[l].port
    case ByFailure(m) => m == l
    case ByWatcher(m) => m == l && s.listeners[l].conn in s.ended
  }

  lemma IsolatedWhenKeysNotReused(p: Platform, s: Registry, l: nat)
    requires Reachable(Forwards(p), EMPTY, s) && !p.spuriousAccept && KeysNotReused(s)
    requires l < |s.listeners| && !s.listeners[l].open
    ensures s.listeners[l].closedBy.Some? && OwnClose(s, l)
  {
    ReachableInv(p, s);
    var x := s.listeners[l];
    assert ListenerSound(p, s, l);
    match x.closedBy.value
    case ByCancel(host, port) => ForwardKeyInjective(host, port, x.host, x.port);
    case _ =>
  }

  // ---- a foreign close goes back to a cancel of the same key

  /** A close on behalf of a listener other than the one that is closed. */
  predicate Foreign(cause: Cause, l: nat) {
    !cause.ByCancel? && cause.listener != l
  }

  lemma OwnCloseIff(p: Platform, s: Registry, l: nat)
    requires Inv(p, s) && l < |s.listeners| && s.listeners[l].closedBy.Some?
    ensures OwnClose(s, l) <==> !Foreign(s.listeners[l].closedBy.value, l)
  {
    var x := s.listeners[l];
    assert ListenerSound(p, s, l);
    match x.closedBy.value
    case ByCancel(host, port) => ForwardKeyInjective(host, port, x.host, x.port);
    case _ =>
  }

  ghost predicate IsCancelled(s: Registry, key: string, j: nat) {
    j < |s.listeners| && s.listeners[j].key == key && s.listeners[j].closedBy.Some?
    && s.listeners[j].closedBy.value.ByCancel?
  }

  /** Some listener under this key was closed by a cancel. */
  ghost predicate Cancelled(s: Registry, key: string) {
    exists j: nat :: IsCancelled(s, key, j)
  }

  ghost predicate IsCancelling(s: Registry, key: string, t: nat) {
    && t < |s.threads| && s.threads[t].Unregistered? && s.threads[t].cause.ByCancel?
    && s.threads[t].listener < |s.listeners| && s.listeners[s.threads[t].listener].key == key
  }

  /** Or a cancel has taken it out of the table and is about to close it. */
  ghost predicate CancelSeen(s: Registry, key: string) {
    Cancelled(s, key) || exists t: nat :: IsCancelling(s, key, t)
  }

  /** A guard whose listener is no longer in the table lost it to a cancel, if not its own then an earlier one. */
  ghost predicate GuardTraced(s: Registry, th: Thread, m: nat) {
    Guards(th, m) ==> m < |s.listeners| && (InTable(s, m) || CancelSeen(s, s.listeners[m].key))
  }

  ghost predicate CarrierTraced(s: Registry, th: Thread) {
    th.Unregistered? && Foreign(th.cause, th.listener) ==>
      th.listener < |s.listeners| && Cancelled(s, s.listeners[th.listener].key)
  }

  ghost predicate CloseTraced(s: Registry, l: nat) {
    l < |s.listeners| && s.listeners[l].closedBy.Some? && Foreign(s.listeners[l].closedBy.value, l) ==>
      Cancelled(s, s.listeners[l].key)
  }

  ghost predicate Traced(s: Registry) {
    && (forall t: nat, m: nat :: t < |s.threads| ==> GuardTraced(s, s.threads[t], m))
    && (forall t: nat :: t < |s.threads| ==> CarrierTraced(s, s.threads[t]))
    && (forall l: nat :: CloseTraced(s, l))
  }

  lemma CancelledStays(p: Platform, s: Registry, step: Step, key: string)
    requires Inv(p, s) && Enabled(p, s, step) && Cancelled(s, key)
    ensures Cancelled(Apply(p, s, step), key)
  {
    var j: nat :| IsCancelled(s, key, j);
    assert ListenerSound(p, s, j);
    if step.Act? {
      assert ThreadSound(s, s.threads[step.t]);
    }
    assert IsCancelled(Apply(p, s, step), key, j);
  }

  lemma CancelSeenStays(p: Platform, s: Registry, step: Step, key: string)
    requires Inv(p, s) && Enabled(p, s, step) && CancelSeen(s, key)
    ensures CancelSeen(Apply(p, s, step), key)
  {
    if Cancelled(s, key) {
      CancelledStays(p, s, step, key);
    } else {
      var t: nat :| IsCancelling(s, key, t);
      CancellingGoesOn(p, s, step, key, t);
    }
  }

  lemma CancellingGoesOn(p: Platform, s: Registry, step: Step, key: string, t: nat)
    requires Enabled(p, s, step) && IsCancelling(s, key, t)
    ensures if step == Act(t, CloseListener) then IsCancelled(Apply(p, s, step), key, s.threads[t].listener)
            else IsCancelling(Apply(p, s, step), key, t)
  {
  }

  /** While a listener is in the table, a cancel of its key that was seen before is over. */
  lemma OlderCancelIsOver(p: Platform, s: Registry, l: nat)
    requires Inv(p, s) && l < |s.listeners| && InTable(s, l) && CancelSeen(s, s.listeners[l].key)
    ensures Cancelled(s, s.listeners[l].key)
  {
    if !Cancelled(s, s.listeners[l].key) {
      var t: nat :| IsCancelling(s, s.listeners[l].key, t);
      var j := s.threads[t].listener;
      assert ThreadSound(s, s.threads[t]);
      assert ListenerSound(p, s, l) && ListenerSound(p, s, j);
      ForwardKeyInjective(s.listeners[l].host, s.listeners[l].port, s.listeners[j].host, s.listeners[j].port);
      assert false;
    }
  }

  /** A goroutine that finds another listener under its key finds it after a cancel. */
  lemma ForeignUnregister(p: Platform, s: Registry, t: nat)
    requires Inv(p, s) && Traced(s) && t < |s.threads| && s.threads[t].Closing? && s.threads[t].key in s.table
    requires Foreign(s.threads[t].cause, s.table[s.threads[t].key])
    ensures Cancelled(s, s.threads[t].key)
  {
    var th := s.threads[t];
    assert ThreadSound(s, th);
    assert Guards(th, th.cause.listener) && GuardTraced(s, th, th.cause.listener);
    OlderCancelIsOver(p, s, s.table[th.key]);
  }

  lemma GuardStaysTraced(p: Platform, s: Registry, step: Step, t: nat, m: nat)
    requires Inv(p, s) && GuardsDistinct(s) && Traced(s) && Enabled(p, s, step) && !p.spuriousAccept
    requires t < |Apply(p, s, step).threads| && Guards(Apply(p, s, step).threads[t], m)
    ensures GuardTraced(Apply(p, s, step), Apply(p, s, step).threads[t], m)
  {
    var s' := Apply(p, s, step);
    GuardsComeFrom(p, s, step, t, m);
    if step.Act? && step.action.Register? && t == step.t {
      assert ThreadSound(s, s.threads[t]);
    } else {
      var u := if t < |s.threads| then t else step.t;
      assert GuardTraced(s, s.threads[u], m);
      if CancelSeen(s, s.listeners[m].key) {
        CancelSeenStays(p, s, step, s.listeners[m].key);
      } else if step.Act? {
        StaysInTable(p, s, step.t, step.action, u, m);
      }
    }
  }

  /** What takes a guarded listener out of the table is its guard, whose work is then done, or a cancel. */
  lemma StaysInTable(p: Platform, s: Registry, t: nat, action: Action, u: nat, m: nat)
    requires Inv(p, s) && GuardsDistinct(s) && Traced(s) && !p.spuriousAccept
    requires t < |s.threads| && CanAct(p, s, s.threads[t], action)
    requires u < |s.threads| && Guards(s.threads[u], m) && m < |s.listeners| && InTable(s, m)
    requires !CancelSeen(s, s.listeners[m].key) && (action.Unregister? ==> t != u)
    ensures var s' := DoAct(p, s, t, action); InTable(s', m) || CancelSeen(s', s.listeners[m].key)
  {
    var s' := DoAct(p, s, t, action);
    var th := s.threads[t];
    assert ThreadSound(s, th);
    match action {
      case Register => RegisterFindsKeyFree(p, s, t);
      case Unregister =>
        if th.key == s.listeners[m].key {
          if Foreign(th.cause, m) {
            ForeignUnregister(p, s, t);
          } else {
            assert !Guards(th, m);
            assert IsCancelling(s', s.listeners[m].key, t);
          }
        }
      case _ =>
    }
  }

  lemma CarrierStaysTraced(p: Platform, s: Registry, step: Step, t: nat)
    requires Inv(p, s) && Traced(s) && Enabled(p, s, step) && t < |Apply(p, s, step).threads|
    ensures CarrierTraced(Apply(p, s, step), Apply(p, s, step).threads[t])
  {
    var th := Apply(p, s, step).threads[t];
    if th.Unregistered? && Foreign(th.cause, th.listener) {
      if step == Act(t, Unregister) {
        ForeignUnregister(p, s, t);
        CancelledStays(p, s, step, s.threads[t].key);
      } else {
        assert CarrierTraced(s, s.threads[t]);
        CancelledStays(p, s, step, s.listeners[th.listener].key);
      }
    }
  }

  lemma CloseStaysTraced(p: Platform, s: Registry, step: Step, l: nat)
    requires Inv(p, s) && Traced(s) && Enabled(p, s, step)
    ensures CloseTraced(Apply(p, s, step), l)
  {
    var s' := Apply(p, s, step);
    if l < |s'.listeners| && s'.listeners[l].closedBy.Some? && Foreign(s'.listeners[l].closedBy.value, l) {
      assert CloseTraced(s, l);
      if step.Act? && step.action.CloseListener? {
        assert CarrierTraced(s, s.threads[step.t]);
      }
      CancelledStays(p, s, step, s.listeners[l].key);
    }
  }

  lemma StepKeepsTraced(p: Platform, s: Registry, step: Step)
    requires Inv(p, s) && GuardsDistinct(s) && Traced(s) && Enabled(p, s, step) && !p.spuriousAccept
    ensures Traced(Apply(p, s, step))
  {
    var s' := Apply(p, s, step);
    forall t: nat, m: nat | t < |s'.threads| ensures GuardTraced(s', s'.threads[t], m) {
      if Guards(s'.threads[t], m) {
        GuardStaysTraced(p, s, step, t, m);
      }
    }
    forall t: nat | t < |s'.threads| ensures CarrierTraced(s', s'.threads[t]) {
      CarrierStaysTraced(p, s, step, t);
    }
    forall l: nat ensures CloseTraced(s', l) {
      CloseStaysTraced(p, s, step, l);
    }
  }

  /** In every run, whoever else uses the table: a forward that was not closed on its own behalf has its key in common
      with one that a cancel closed. */
  lemma ForeignCloseNeedsCancel(p: Platform, s: Registry, l: nat)
    requires Reachable(Forwards(p), EMPTY, s) && !p.spuriousAccept
    requires l < |s.listeners| && !s.listeners[l].open
    ensures s.listeners[l].closedBy.Some?
    ensures !OwnClose(s, l) ==> Cancelled(s, s.listeners[l].key)
  {
    var inv := (s: Registry) => Guardly(p, s) && Traced(s);
    forall x, step | inv(x) && Forwards(p).enabled(x, step) ensures inv(Forwards(p).apply(x, step)) {
      StepKeepsInv(p, x, step);
      StepKeepsGuardsDistinct(p, x, step);
      StepKeepsTraced(p, x, step);
    }
    ReachableKeeps(Forwards(p), inv, EMPTY, s);
    assert ListenerSound(p, s, l) && CloseTraced(s, l);
    OwnCloseIff(p, s, l);
  }

  // ---- which keys can lose isolation

  ghost predicate CauseAllowed(allow: string -> bool, cause: Cause) {
    cause.ByCancel? ==> allow(ForwardKey(cause.host, cause.port))
  }

  /** Every cancel that left a mark was of an allowed key. */
  ghost predicate CancelsAllowed(allow: string -> bool, s: Registry) {
    && (forall t :: 0 <= t < |s.threads| && (s.threads[t].Closing? || s.threads[t].Unregistered?) ==>
          CauseAllowed(allow, s.threads[t].cause))
    && (forall l :: 0 <= l < |s.listeners| && s.listeners[l].closedBy.Some? ==>
          CauseAllowed(allow, s.listeners[l].closedBy.value))
  }

  lemma StepKeepsCancelsAllowed(p: Platform, allow: string -> bool, s: Registry, step: Step)
    requires CancelsAllowed(allow, s) && Enabled(p, s, step)
    requires step.CancelRequest? ==> allow(ForwardKey(step.host, step.port))
    ensures CancelsAllowed(allow, Apply(p, s, step))
  {
  }

  lemma OnlyAllowedCancels(p: Platform, allow: string -> bool, s: Registry)
    requires Reachable(Allowing(p, allow), EMPTY, s)
    ensures CancelsAllowed(allow, s)
  {
    var inv := (s: Registry) => CancelsAllowed(allow, s);
    forall x, step | inv(x) && Allowing(p, allow).enabled(x, step) ensures inv(Allowing(p, allow).apply(x, step)) {
      StepKeepsCancelsAllowed(p, allow, x, step);
    }
    ReachableKeeps(Allowing(p, allow), inv, EMPTY, s);
  }

  /** If only keys satisfying `allow` are cancelled, only forwards under such keys can be closed on another's behalf. */
  lemma IsolatedUnlessCancelled(p: Platform, allow: string -> bool, s: Registry, l: nat)
    requires Reachable(Allowing(p, allow), EMPTY, s) && !p.spuriousAccept
    requires l < |s.listeners| && !s.listeners[l].open
    ensures s.listeners[l].closedBy.Some? && (OwnClose(s, l) || allow(s.listeners[l].key))
  {
    AllowedRunsAreRuns(p, allow, EMPTY, s);
    ForeignCloseNeedsCancel(p, s, l);
    if !OwnClose(s, l) {
      ReachableInv(p, s);
      OnlyAllowedCancels(p, allow, s);
      var j: nat :| IsCancelled(s, s.listeners[l].key, j);
      assert ListenerSound(p, s, j);
    }
  }

  /** The machine without cancel requests. */
  function WithoutCancels(p: Platform): Machine<Registry, Step> {
    Allowing(p, _ => false)
  }

  /** In a run without cancel requests no forward is ever closed on another connection's behalf, even though
      ports, and so keys, are reused after connections end. */
  lemma IsolatedWhenNobodyCancels(p: Platform, s: Registry, l: nat)
    requires Reachable(WithoutCancels(p), EMPTY, s) && !p.spuriousAccept
    requires l < |s.listeners| && !s.listeners[l].open
    ensures s.listeners[l].closedBy.Some? && OwnClose(s, l)
  {
    IsolatedUnlessCancelled(p, _ => false, s, l);
  }

  ghost predicate LosesIsolation(s: Registry, key: string, l: nat) {
    l < |s.listeners| && s.listeners[l].key == key && s.listeners[l].closedBy.Some? && !OwnClose(s, l)
  }

  ghost predicate CanLoseIsolation(p: Platform, allow: string -> bool, key: string) {
    exists s, l: nat :: Reachable(Allowing(p, allow), EMPTY, s) && LosesIsolation(s, key, l)
  }

  /** Exactly the keys that may be cancelled can lose isolation: among the runs in which only keys satisfying `allow`
      are cancelled, one closes a forward for this host and port on another's behalf if and only if its key does. */
  lemma IsolationLostIff(p: Platform, allow: string -> bool, host: string, port: nat)
    requires !p.spuriousAccept && p.isLoopback(BindHost(host)) && 0 < port <= MAX_PORT
    ensures CanLoseIsolation(p, allow, ForwardKey(host, port)) <==> allow(ForwardKey(host, port))
  {
    var key := ForwardKey(host, port);
    if allow(key) {
      var s := WatcherClosesForeign(p, allow, host, port);
      assert LosesIsolation(s, key, 1);
    }
    if CanLoseIsolation(p, allow, key) {
      var s, l: nat :| Reachable(Allowing(p, allow), EMPTY, s) && LosesIsolation(s, key, l);
      AllowedRunsAreRuns(p, allow, EMPTY, s);
      ReachableInv(p, s);
      assert ListenerSound(p, s, l);
      IsolatedUnlessCancelled(p, allow, s, l);
    }
  }

  // ---- the two ways to lose it

  /** A request whose connection is not found closes by key: connection 1 registers, a cancel closes its listener,
      connection 2 registers the same host and port, and the failing start of connection 1 closes that one.  No
      connection has ended. */
  lemma FailureClosesForeign(p: Platform, allow: string -> bool, host: string, port: nat) returns (s: Registry)
    requires p.isLoopback(BindHost(host)) && 0 < port <= MAX_PORT && allow(ForwardKey(host, port))
    ensures Reachable(Allowing(p, allow), EMPTY, s)
    ensures |s.listeners| == 2 && s.listeners[1].conn == 2 && s.ended == {}
    ensures s.listeners[1].key == ForwardKey(host, port) && s.listeners[1].closedBy == Some(ByFailure(0))
    ensures s.listeners[0].conn == 1 && !OwnClose(s, 1)
  {
    Stay(Allowing(p, allow), EMPTY);
    s := RegisterOne(p, allow, EMPTY, 1, host, port);
    s := CancelOnly(p, allow, s, host, port);
    s := RegisterOne(p, allow, s, 2, host, port);
    s := Acts(p, allow, s, 0, ConnectionMissing);
    s := Acts(p, allow, s, 0, Unregister);
    s := Acts(p, allow, s, 0, CloseListener);
  }

  /** The failure path loses isolation, for every host and port that can be bound. */
  lemma FailedStartLosesIsolation(p: Platform, host: string, port: nat) returns (s: Registry)
    requires p.isLoopback(BindHost(host)) && 0 < port <= MAX_PORT
    ensures Reachable(Forwards(p), EMPTY, s)
    ensures |s.listeners| == 2 && s.listeners[1].conn == 2 && s.ended == {}
    ensures s.listeners[1].closedBy == Some(ByFailure(0)) && s.listeners[0].conn == 1 && !OwnClose(s, 1)
  {
    s := FailureClosesForeign(p, _ => true, host, port);
    AllowedRunsAreRuns(p, _ => true, EMPTY, s);
  }

  /** A watcher closes by key too: connection 1 opens a forward and cancels it, connection 2 opens the same host and
      port, and the end of connection 1 closes the forward of connection 2. */
  lemma WatcherClosesForeign(p: Platform, allow: string -> bool, host: string, port: nat) returns (s: Registry)
    requires p.isLoopback(BindHost(host)) && 0 < port <= MAX_PORT && allow(ForwardKey(host, port))
    ensures Reachable(Allowing(p, allow), EMPTY, s)
    ensures |s.listeners| == 2 && s.listeners[1].conn == 2 && s.ended == {1}
    ensures s.listeners[1].key == ForwardKey(host, port) && s.listeners[1].closedBy == Some(ByWatcher(0))
    ensures s.listeners[0].conn == 1 && !OwnClose(s, 1)
  {
    Stay(Allowing(p, allow), EMPTY);
    s := RegisterOne(p, allow, EMPTY, 1, host, port);
    s := Acts(p, allow, s, 0, SpawnWatcher);
    s := CancelOnly(p, allow, s, host, port);
    s := RegisterOne(p, allow, s, 2, host, port);
    s := Go(Allowing(p, allow), EMPTY, s, EndConnection(1));
    s := Acts(p, allow, s, 1, Wake);
    s := Acts(p, allow, s, 1, Unregister);
    s := Acts(p, allow, s, 1, CloseListener);
  }

  /** So the watcher loses isolation as well, for every host and port that can be bound. */
  lemma ReusedKeyLosesIsolation(p: Platform, host: string, port: nat) returns (s: Registry)
    requires p.isLoopback(BindHost(host)) && 0 < port <= MAX_PORT
    ensures Reachable(Forwards(p), EMPTY, s)
    ensures |s.listeners| == 2 && s.listeners[1].conn == 2 && s.ended == {1}
    ensures s.listeners[1].closedBy == Some(ByWatcher(0)) && s.listeners[0].conn == 1 && !OwnClose(s, 1)
  {
    s := WatcherClosesForeign(p, _ => true, host, port);
    AllowedRunsAreRuns(p, _ => true, EMPTY, s);
  }

  // ---- exactly when a close is foreign

  /** Any goroutine closing by key, whichever path led it there: what it closes is foreign if and only if it was not
      sent by a cancel and the listener it was to close is not the one under the key. */
  lemma CloseIsForeignIff(p: Platform, s: Registry, t: nat)
    requires Inv(p, s) && t < |s.threads| && s.threads[t].Closing? && s.threads[t].key in s.table
    ensures var l := s.table[s.threads[t].key];
      var removed := DoAct(p, s, t, Unregister);
      && CanAct(p, removed, removed.threads[t], CloseListener)
      && var done := DoAct(p, removed, t, CloseListener);
         && l < |done.listeners| && done.listeners[l].closedBy.Some?
         && (!OwnClose(done, l) <==> !s.threads[t].cause.ByCancel? && s.threads[t].cause.listener != l)
  {
    var th := s.threads[t];
    var l := s.table[th.key];
    assert ThreadSound(s, th) && ListenerSound(p, s, l);
    match th.cause
    case ByCancel(host, port) => ForwardKeyInjective(host, port, s.listeners[l].host, s.listeners[l].port);
    case _ =>
  }

  /** Only goroutine `t` and the end of a connection. */
  function Alone(p: Platform, conn: nat, t: nat): Machine<Registry, Step> {
    Machine((s: Registry, step: Step) =>
              (step == EndConnection(conn) || (step.Act? && step.t == t)) && Enabled(p, s, step),
            (s, step) => if Enabled(p, s, step) then Apply(p, s, step) else s)
  }

  /** Left alone with the end of its listener's connection, goroutine `t` can close listener `l`. */
  ghost predicate CanClose(p: Platform, s: Registry, t: nat, m: nat, l: nat)
    requires m < |s.listeners|
  {
    exists s' :: Reachable(Alone(p, s.listeners[m].conn, t), s, s') && l < |s'.listeners| && !s'.listeners[l].open
  }

  /** The guard `t` of listener `m`, or what has become of it, while `l` holds its key or does not. */
  ghost predicate Watches(before: Registry, t: nat, m: nat, l: nat, s: Registry) {
    && |s.listeners| == |before.listeners|
    && t < |s.threads| && m < |s.listeners| && l < |s.listeners|
    && s.listeners[m].key == before.listeners[m].key
    && (Guards(s.threads[t], m) || s.threads[t].Spawned? ==> s.table == before.table && s.listeners == before.listeners)
    && match s.threads[t]
       case Registered(x) => x == m
       case Watching(x) => x == m
       case Closing(key, cause) => key == before.listeners[m].key && Guards(s.threads[t], m)
       case Unregistered(x, _) => x != l && s.listeners == before.listeners
       case Spawned(_) => true
       case Finished => s.listeners[l].open
       case _ => false
  }

  /** A goroutine bound to close one listener, as its watcher or on the failure path of its start, can close some other
      listener if and only if its key now belongs to that one. */
  lemma ForeignCloseIff(p: Platform, s: Registry, t: nat, m: nat, l: nat)
    requires Inv(p, s) && t < |s.threads| && Guards(s.threads[t], m) && m < |s.listeners|
    requires l < |s.listeners| && l != m && s.listeners[l].open
    ensures CanClose(p, s, t, m, l) <==> s.listeners[m].key in s.table && s.table[s.listeners[m].key] == l
  {
    assert ThreadSound(s, s.threads[t]);
    if s.listeners[m].key in s.table && s.table[s.listeners[m].key] == l {
      ForeignCloseHappens(p, s, t, m, l);
    } else {
      forall s' | Reachable(Alone(p, s.listeners[m].conn, t), s, s')
        ensures |s'.listeners| == |s.listeners| && s'.listeners[l].open
      {
        var own := Alone(p, s.listeners[m].conn, t);
        var inv := (x: Registry) => Watches(s, t, m, l, x);
        forall x, step | inv(x) && own.enabled(x, step) ensures inv(own.apply(x, step)) {
          WatcherLeaves(p, s, t, m, l, x, step);
        }
        ReachableKeeps(own, inv, s, s');
      }
    }
  }

  lemma ActsAlone(p: Platform, start: Registry, conn: nat, t: nat, x: Registry, action: Action) returns (s: Registry)
    requires Reachable(Alone(p, conn, t), start, x) && t < |x.threads| && CanAct(p, x, x.threads[t], action)
    ensures Reachable(Alone(p, conn, t), start, s) && s == DoAct(p, x, t, action)
  {
    s := Go(Alone(p, conn, t), start, x, Act(t, action));
  }

  lemma ForeignCloseHappens(p: Platform, s: Registry, t: nat, m: nat, l: nat)
    requires t < |s.threads| && Guards(s.threads[t], m) && m < |s.listeners| && l < |s.listeners|
    requires s.threads[t].Closing? ==> s.threads[t].key == s.listeners[m].key
    requires s.listeners[m].key in s.table && s.table[s.listeners[m].key] == l
    ensures CanClose(p, s, t, m, l)
  {
    var conn := s.listeners[m].conn;
    Stay(Alone(p, conn, t), s);
    var s' := Go(Alone(p, conn, t), s, s, EndConnection(conn));
    if s.threads[t].Registered? {
      s' := ActsAlone(p, s, conn, t, s', ConnectionMissing);
    } else if s.threads[t].Watching? {
      s' := ActsAlone(p, s, conn, t, s', Wake);
    }
    s' := ActsAlone(p, s, conn, t, s', Unregister);
    s' := ActsAlone(p, s, conn, t, s', CloseListener);
  }

  lemma WatcherLeaves(p: Platform, s: Registry, t: nat, m: nat, l: nat, x: Registry, step: Step)
    requires t < |s.threads| && m < |s.listeners| && l < |s.listeners| && l != m && s.listeners[l].open
    requires !(s.listeners[m].key in s.table && s.table[s.listeners[m].key] == l)
    requires Watches(s, t, m, l, x) && Enabled(p, x, step)
    requires step.EndConnection? || (step.Act? && step.t == t)
    ensures Watches(s, t, m, l, Apply(p, x, step))
  {
  }

  // ---- what the client is told, and what it cancels with

  /** Destination address and port of the forwarded-tcpip channels of a listener, section 7.2 of RFC 4254. */
  function ReportedDestination(x: Listener): (string, nat) {
    (x.host, x.port)
  }

  /** What a request can be bound to: loopback, a free port, and that the one asked for unless it asked for any. */
  lemma BindsWhatWasAsked(p: Platform, s: Registry, t: nat, port: nat)
    requires t < |s.threads| && s.threads[t].Opening?
    ensures Enabled(p, s, Act(t, Listen(port))) <==>
      var host := if s.threads[t].host in {"", "*", "0.0.0.0", "::"} then "127.0.0.1" else s.threads[t].host;
      && p.isLoopback(host) && 0 < port <= 65535 && (s.threads[t].port == 0 || s.threads[t].port == port)
      && forall l :: 0 <= l < |s.listeners| && s.listeners[l].open && s.listeners[l].addr == p.resolve(host) ==>
           s.listeners[l].port != port
  {
  }

  /** As long as a listener is open its accept loop can take one more connection, and is then where it was. */
  lemma OpenForwardAccepts(p: Platform, s: Registry, t: nat)
    requires Reachable(Forwards(p), EMPTY, s) && !p.spuriousAccept
    requires t < |s.threads| && s.threads[t].Accepting?
    ensures s.threads[t].listener < |s.listeners|
    ensures s.listeners[s.threads[t].listener].open <==> Enabled(p, s, Act(t, Accept))
    ensures !s.listeners[s.threads[t].listener].open <==> Enabled(p, s, Act(t, AcceptError))
    ensures Enabled(p, s, Act(t, Accept)) ==> Apply(p, s, Act(t, Accept)) == s
  {
    ReachableInv(p, s);
    assert ThreadSound(s, s.threads[t]);
  }

  /** While a forward is registered, a cancel closes it exactly when it names the reported destination. */
  lemma ReportedDestinationCancels(p: Platform, s: Registry, l: nat, host: string, port: nat)
    requires Inv(p, s) && l < |s.listeners| && InTable(s, l)
    ensures var asked := Apply(p, s, CancelRequest(host, port));
      var done := Apply(p, asked, Act(|s.threads|, Unregister));
      && done.threads[|s.threads|] == Unregistered(l, ByCancel(host, port)) <==>
           (host, port) == ReportedDestination(s.listeners[l])
  {
    assert ListenerSound(p, s, l);
    if ForwardKey(host, port) in s.table && s.table[ForwardKey(host, port)] == l {
      ForwardKeyInjective(host, port, s.listeners[l].host, s.listeners[l].port);
    }
  }
}
