/** The reverse-forward table of internal/sshserver/forward.go, shared by every SSH connection, as a state machine.

    Every goroutine is a thread with a program counter.  A step is one action that no other goroutine can
    interrupt: one call into the operating system, or one critical section under the handler's mutex. */
module ForwardRegistry {
  import opened ForwardKeys
  import opened Options
  import opened Runs

  /** What the machine depends on outside the repository: which names are loopback, the address a name binds,
      and whether Accept may fail on a listener nobody closed. */
  datatype Platform = Platform(isLoopback: string -> bool, resolve: string -> string, spuriousAccept: bool)

  const LOOPBACK_IPV4 := "127.0.0.1"
  const ANY_BIND_ADDRESSES: set<string> := {"", "*", "0.0.0.0", "::"}
  const MAX_PORT := 65535

  function BindHost(host: string): string {
    if host in ANY_BIND_ADDRESSES then LOOPBACK_IPV4 else host
  }

  /** On whose behalf `closeForward` was called. */
  datatype Cause =
    | ByCancel(host: string, port: nat)
    | ByFailure(listener: nat)
    | ByWatcher(listener: nat)

  /** A socket.  `key` is the table key of what was requested and bound; `registered` and `closedBy` record history,
      which the program does not read. */
  datatype Listener = Listener(
    conn: nat, host: string, addr: string, port: nat, key: string,
    open: bool, registered: bool, closedBy: Option<Cause>)

  datatype Thread =
    | Opening(conn: nat, host: string, port: nat)  // startForward, before net.Listen
    | Bound(listener: nat)                         // listening, before the table is written
    | Registered(listener: nat)                    // in the table, before the connection lookup
    | Spawned(listener: nat)                       // watcher started, accept loop not yet
    | Watching(listener: nat)                      // waiting for the connection to end
    | Closing(key: string, cause: Cause)           // closeForward, before its critical section
    | Unregistered(listener: nat, cause: Cause)    // closeForward, before listener.Close
    | Accepting(listener: nat)                     // acceptLoop, in Accept
    | Leaving(listener: nat)                       // acceptLoop, before its deferred critical section
    | Finished

  datatype Registry = Registry(
    table: map<string, nat>, listeners: seq<Listener>, threads: seq<Thread>, ended: set<nat>)

  const EMPTY := Registry(map[], [], [], {})

  /** One action of a goroutine. */
  datatype Action =
    | Refuse                  // the policy or net.Listen turns the request down
    | Listen(boundPort: nat)
    | Register
    | ConnectionMissing
    | SpawnWatcher
    | SpawnAcceptLoop
    | Wake
    | Unregister
    | CloseListener
    | Accept
    | AcceptError
    | LeaveAcceptLoop

  datatype Step =
    | Request(conn: nat, host: string, port: nat)
    | CancelRequest(host: string, port: nat)
    | EndConnection(conn: nat)
    | Act(t: nat, action: Action)

  predicate PortFree(s: Registry, addr: string, port: nat) {
    forall l :: 0 <= l < |s.listeners| && s.listeners[l].open ==>
      !(s.listeners[l].addr == addr && s.listeners[l].port == port)
  }

  predicate CanAct(p: Platform, s: Registry, th: Thread, action: Action) {
    match action
    case Refuse => th.Opening?
    case Listen(boundPort) =>
      && th.Opening?
      && p.isLoopback(BindHost(th.host))
      && 0 < boundPort <= MAX_PORT
      && (th.port == 0 || th.port == boundPort)
      && PortFree(s, p.resolve(BindHost(th.host)), boundPort)
    case Register => th.Bound? && th.listener < |s.listeners|
    case ConnectionMissing => th.Registered? && th.listener < |s.listeners|
    case SpawnWatcher => th.Registered?
    case SpawnAcceptLoop => th.Spawned?
    case Wake => th.Watching? && th.listener < |s.listeners| && s.listeners[th.listener].conn in s.ended
    case Unregister => th.Closing?
    case CloseListener => th.Unregistered? && th.listener < |s.listeners|
    case Accept => th.Accepting? && th.listener < |s.listeners| && s.listeners[th.listener].open
    case AcceptError =>
      && th.Accepting? && th.listener < |s.listeners|
      && (p.spuriousAccept || !s.listeners[th.listener].open)
    case LeaveAcceptLoop => th.Leaving? && th.listener < |s.listeners|
  }

  predicate Enabled(p: Platform, s: Registry, step: Step) {
    match step
    case Request(conn, _, _) => conn !in s.ended
    case CancelRequest(_, _) => true
    case EndConnection(_) => true
    case Act(t, action) => t < |s.threads| && CanAct(p, s, s.threads[t], action)
  }

  function NewListener(p: Platform, conn: nat, host: string, port: nat): Listener {
    Listener(conn, host, p.resolve(BindHost(host)), port, ForwardKey(host, port), true, false, None)
  }

  function DoAct(p: Platform, s: Registry, t: nat, action: Action): Registry
    requires t < |s.threads| && CanAct(p, s, s.threads[t], action)
  {
    var th := s.threads[t];
    match action
    case Refuse => s.(threads := s.threads[t := Finished])
    case Listen(boundPort) =>
      var x := NewListener(p, th.conn, th.host, boundPort);
      s.(listeners := s.listeners + [x], threads := s.threads[t := Bound(|s.listeners|)])
    case Register =>
      var x := s.listeners[th.listener];
      s.(table := s.table[x.key := th.listener],
         listeners := s.listeners[th.listener := x.(registered := true)],
         threads := s.threads[t := Registered(th.listener)])
    case ConnectionMissing =>
      s.(threads := s.threads[t := Closing(s.listeners[th.listener].key, ByFailure(th.listener))])
    case SpawnWatcher => s.(threads := s.threads[t := Spawned(th.listener)] + [Watching(th.listener)])
    case SpawnAcceptLoop => s.(threads := s.threads[t := Finished] + [Accepting(th.listener)])
    case Wake => s.(threads := s.threads[t := Closing(s.listeners[th.listener].key, ByWatcher(th.listener))])
    case Unregister =>
      if th.key in s.table then
        s.(table := s.table - {th.key}, threads := s.threads[t := Unregistered(s.table[th.key], th.cause)])
      else s.(threads := s.threads[t := Finished])
    case CloseListener =>
      var x := s.listeners[th.listener];
      s.(listeners := s.listeners[th.listener := x.(open := false, closedBy := Some(th.cause))],
         threads := s.threads[t := Finished])
    case Accept => s
    case AcceptError => s.(threads := s.threads[t := Leaving(th.listener)])
    case LeaveAcceptLoop =>
      var key := s.listeners[th.listener].key;
      s.(table := if key in s.table && s.table[key] == th.listener then s.table - {key} else s.table,
         threads := s.threads[t := Finished])
  }

  function Apply(p: Platform, s: Registry, step: Step): Registry
    requires Enabled(p, s, step)
  {
    match step
    case Request(conn, host, port) => s.(threads := s.threads + [Opening(conn, host, port)])
    case CancelRequest(host, port) =>
      s.(threads := s.threads + [Closing(ForwardKey(host, port), ByCancel(host, port))])
    case EndConnection(conn) => s.(ended := s.ended + {conn})
    case Act(t, action) => DoAct(p, s, t, action)
  }

  function Forwards(p: Platform): Machine<Registry, Step> {
    Machine((s, step) => Enabled(p, s, step), (s, step) => if Enabled(p, s, step) then Apply(p, s, step) else s)
  }

  // ---- the invariant

  /** Every entry is an open listener, stored under the host the client asked for and the port that was bound. */
  ghost predicate TableSound(s: Registry) {
    forall k :: k in s.table ==>
      var l := s.table[k];
      l < |s.listeners| && s.listeners[l].open && s.listeners[l].registered && s.listeners[l].key == k
  }

  /** Every listener was admitted by the loopback policy and holds its address and port alone. */
  ghost predicate ListenersSound(p: Platform, s: Registry) {
    && (forall l :: 0 <= l < |s.listeners| ==> ListenerSound(p, s, l))
    && (forall l, m :: 0 <= l < m < |s.listeners| && s.listeners[l].open && s.listeners[m].open ==>
          !(s.listeners[l].addr == s.listeners[m].addr && s.listeners[l].port == s.listeners[m].port))
  }

  ghost predicate ListenerSound(p: Platform, s: Registry, l: nat)
    requires l < |s.listeners|
  {
    var x := s.listeners[l];
    && p.isLoopback(BindHost(x.host))
    && x.addr == p.resolve(BindHost(x.host))
    && x.key == ForwardKey(x.host, x.port)
    && (x.open <==> x.closedBy.None?)
    && (x.closedBy.Some? ==> x.registered && CauseFits(s, x.closedBy.value, x.key))
  }

  /** The cause of a close names the key that is closed: literally, or through a listener once registered under it. */
  ghost predicate CauseFits(s: Registry, cause: Cause, key: string) {
    match cause
    case ByCancel(host, port) => key == ForwardKey(host, port)
    case ByFailure(l) => l < |s.listeners| && s.listeners[l].registered && s.listeners[l].key == key
    case ByWatcher(l) =>
      && l < |s.listeners| && s.listeners[l].registered && s.listeners[l].key == key
      && s.listeners[l].conn in s.ended
  }

  predicate InTable(s: Registry, l: nat)
    requires l < |s.listeners|
  {
    s.listeners[l].key in s.table && s.table[s.listeners[l].key] == l
  }

  ghost predicate ThreadSound(s: Registry, th: Thread) {
    match th
    case Opening(_, _, _) => true
    case Bound(l) => l < |s.listeners| && s.listeners[l].open && !s.listeners[l].registered
    case Registered(l) => l < |s.listeners| && s.listeners[l].registered
    case Spawned(l) => l < |s.listeners| && s.listeners[l].registered
    case Watching(l) => l < |s.listeners| && s.listeners[l].registered
    case Closing(key, cause) => CauseFits(s, cause, key)
    case Unregistered(l, cause) =>
      && l < |s.listeners| && s.listeners[l].open && s.listeners[l].registered && !InTable(s, l)
      && CauseFits(s, cause, s.listeners[l].key)
    case Accepting(l) => l < |s.listeners| && s.listeners[l].registered
    case Leaving(l) => l < |s.listeners| && s.listeners[l].registered && !s.listeners[l].open
    case Finished => true
  }

  /** A thread that owns a socket the table does not hold. */
  predicate Carries(th: Thread, l: nat) {
    (th.Bound? || th.Unregistered?) && th.listener == l
  }

  ghost predicate ThreadsSound(s: Registry) {
    && (forall t :: 0 <= t < |s.threads| ==> ThreadSound(s, s.threads[t]))
    && (forall t, u, l: nat :: 0 <= t < u < |s.threads| ==> !(Carries(s.threads[t], l) && Carries(s.threads[u], l)))
  }

  /** Every open listener is bound and about to be registered, in the table, or removed and about to be closed. */
  ghost predicate Accounted(s: Registry) {
    forall l :: 0 <= l < |s.listeners| && s.listeners[l].open ==> InTable(s, l) || Carried(s, l)
  }

  ghost predicate Carried(s: Registry, l: nat) {
    exists t :: 0 <= t < |s.threads| && Carries(s.threads[t], l)
  }

  /** A thread that still has to see to it that listener `l` leaves the table. */
  predicate Guards(th: Thread, l: nat) {
    match th
    case Registered(m) => m == l
    case Watching(m) => m == l
    case Closing(_, ByFailure(m)) => m == l
    case Closing(_, ByWatcher(m)) => m == l
    case _ => false
  }

  ghost predicate Guarded(s: Registry, l: nat) {
    exists t :: 0 <= t < |s.threads| && Guards(s.threads[t], l)
  }

  ghost predicate EntriesGuarded(s: Registry) {
    forall k :: k in s.table ==> Guarded(s, s.table[k])
  }

  ghost predicate Inv(p: Platform, s: Registry) {
    && TableSound(s)
    && ListenersSound(p, s)
    && ThreadsSound(s)
    && Accounted(s)
    && EntriesGuarded(s)
  }

  // ---- preservation, one conjunct at a time

  /** Registration finds its key free: the operating system refuses a second listener on the same address and
      port, the address is a function of the requested host, and keys are injective. */
  lemma RegisterFindsKeyFree(p: Platform, s: Registry, t: nat)
    requires Inv(p, s) && Enabled(p, s, Act(t, Register))
    ensures s.listeners[s.threads[t].listener].key !in s.table
  {
    assert ThreadSound(s, s.threads[t]);
    var l := s.threads[t].listener;
    var key := s.listeners[l].key;
    assert ListenerSound(p, s, l);
    if key in s.table {
      var m := s.table[key];
      assert ListenerSound(p, s, m);
      ForwardKeyInjective(s.listeners[l].host, s.listeners[l].port, s.listeners[m].host, s.listeners[m].port);
    }
  }

  lemma TablePreserved(p: Platform, s: Registry, step: Step)
    requires Inv(p, s) && Enabled(p, s, step) && !p.spuriousAccept
    ensures TableSound(Apply(p, s, step))
  {
    var s' := Apply(p, s, step);
    if step.Act? {
      var th := s.threads[step.t];
      assert ThreadSound(s, th);
      if step.action.Register? {
        RegisterFindsKeyFree(p, s, step.t);
      }
      forall k | k in s'.table
        ensures && s'.table[k] < |s'.listeners| && s'.listeners[s'.table[k]].open
                && s'.listeners[s'.table[k]].registered && s'.listeners[s'.table[k]].key == k
      {
        if step.action.Register? && k == s.listeners[th.listener].key {
        } else {
          assert k in s.table && s.table[k] == s'.table[k];
        }
      }
    }
  }

  lemma CauseStillFits(p: Platform, s: Registry, step: Step, cause: Cause, key: string)
    requires Enabled(p, s, step)
    requires CauseFits(s, cause, key)
    ensures CauseFits(Apply(p, s, step), cause, key)
  {
  }

  lemma ListenersPreserved(p: Platform, s: Registry, step: Step)
    requires Inv(p, s) && Enabled(p, s, step) && !p.spuriousAccept
    ensures ListenersSound(p, Apply(p, s, step))
  {
    var s' := Apply(p, s, step);
    if step.Act? {
      assert ThreadSound(s, s.threads[step.t]);
    }
    forall l | 0 <= l < |s'.listeners|
      ensures ListenerSound(p, s', l)
    {
      if l < |s.listeners| {
        assert ListenerSound(p, s, l);
        if s'.listeners[l].closedBy.Some? {
          CauseStillFits(p, s, step, s'.listeners[l].closedBy.value, s.listeners[l].key);
        }
      }
    }
  }

  /** A thread that did not move stays sound whatever another one does. */
  lemma BystanderSound(p: Platform, s: Registry, step: Step, u: nat)
    requires Inv(p, s) && Enabled(p, s, step) && !p.spuriousAccept
    requires u < |s.threads| && (step.Act? ==> u != step.t)
    ensures ThreadSound(Apply(p, s, step), s.threads[u])
  {
    var th := s.threads[u];
    assert ThreadSound(s, th);
    if step.Act? {
      var mover := s.threads[step.t];
      assert ThreadSound(s, mover);
      match th {
        case Closing(key, cause) => CauseStillFits(p, s, step, cause, key);
        case Unregistered(l, cause) =>
          CauseStillFits(p, s, step, cause, s.listeners[l].key);
          assert Carries(th, l);
          assert !Carries(mover, l);
        case Bound(l) =>
          assert Carries(th, l);
          assert !Carries(mover, l);
        case _ =>
      }
    }
  }

  /** The thread that moved, and every thread it started, is sound. */
  lemma MoverSound(p: Platform, s: Registry, step: Step, u: nat)
    requires Inv(p, s) && Enabled(p, s, step) && !p.spuriousAccept
    requires u < |Apply(p, s, step).threads|
    requires u < |s.threads| ==> step.Act? && u == step.t
    ensures ThreadSound(Apply(p, s, step), Apply(p, s, step).threads[u])
  {
    if step.Act? {
      assert ThreadSound(s, s.threads[step.t]);
      if step.action.Unregister? {
        CauseStillFits(p, s, step, s.threads[step.t].cause, s.threads[step.t].key);
      }
    }
  }

  lemma ThreadsPreserved(p: Platform, s: Registry, step: Step)
    requires Inv(p, s) && Enabled(p, s, step) && !p.spuriousAccept
    ensures ThreadsSound(Apply(p, s, step))
  {
    var s' := Apply(p, s, step);
    forall u | 0 <= u < |s'.threads|
      ensures ThreadSound(s', s'.threads[u])
    {
      if u < |s.threads| && (step.Act? ==> u != step.t) {
        BystanderSound(p, s, step, u);
      } else {
        MoverSound(p, s, step, u);
      }
    }
    forall t, u, l: nat | 0 <= t < u < |s'.threads|
      ensures !(Carries(s'.threads[t], l) && Carries(s'.threads[u], l))
    {
      CarriersStayDistinct(p, s, step, t, u, l);
    }
  }

  lemma CarriersStayDistinct(p: Platform, s: Registry, step: Step, t: nat, u: nat, l: nat)
    requires Inv(p, s) && Enabled(p, s, step) && !p.spuriousAccept
    requires t < u < |Apply(p, s, step).threads|
    ensures !(Carries(Apply(p, s, step).threads[t], l) && Carries(Apply(p, s, step).threads[u], l))
  {
    var s' := Apply(p, s, step);
    if t < |s.threads| { assert ThreadSound(s, s.threads[t]); }
    if u < |s.threads| {
      assert ThreadSound(s, s.threads[u]);
      assert !(Carries(s.threads[t], l) && Carries(s.threads[u], l));
    }
  }

  lemma AccountedPreserved(p: Platform, s: Registry, step: Step)
    requires Inv(p, s) && Enabled(p, s, step) && !p.spuriousAccept
    ensures Accounted(Apply(p, s, step))
  {
    var s' := Apply(p, s, step);
    if step.Act? { assert ThreadSound(s, s.threads[step.t]); }
    forall l | 0 <= l < |s'.listeners| && s'.listeners[l].open
      ensures InTable(s', l) || Carried(s', l)
    {
      if step.Act? && Carries(s'.threads[step.t], l) {
      } else if l < |s.listeners| && !InTable(s, l) {
        var t :| 0 <= t < |s.threads| && Carries(s.threads[t], l);
        assert ThreadSound(s, s.threads[t]);
        if step.Act? && t == step.t {
          assert InTable(s', l);
        } else {
          assert Carries(s'.threads[t], l);
        }
      } else {
        assert InTable(s, l);
        if step.Act? && step.action.Register? {
          RegisterFindsKeyFree(p, s, step.t);
        }
        assert InTable(s', l);
      }
    }
  }

  lemma GuardsPreserved(p: Platform, s: Registry, step: Step)
    requires Inv(p, s) && Enabled(p, s, step) && !p.spuriousAccept
    ensures EntriesGuarded(Apply(p, s, step))
  {
    var s' := Apply(p, s, step);
    if step.Act? { assert ThreadSound(s, s.threads[step.t]); }
    forall k | k in s'.table
      ensures Guarded(s', s'.table[k])
    {
      var l := s'.table[k];
      if step.Act? && step.action.Register? && l == s.threads[step.t].listener {
        assert Guards(s'.threads[step.t], l);
      } else {
        assert k in s.table && s.table[k] == l;
        var t :| 0 <= t < |s.threads| && Guards(s.threads[t], l);
        assert ThreadSound(s, s.threads[t]);
        if step.Act? && t == step.t {
          if step.action.SpawnWatcher? {
            assert Guards(s'.threads[|s.threads|], l);
          } else {
            assert Guards(s'.threads[t], l);
          }
        } else {
          assert Guards(s'.threads[t], l);
        }
      }
    }
  }

  /** Every step keeps the invariant. */
  lemma StepKeepsInv(p: Platform, s: Registry, step: Step)
    requires Inv(p, s) && Enabled(p, s, step) && !p.spuriousAccept
    ensures Inv(p, Apply(p, s, step))
  {
    TablePreserved(p, s, step);
    ListenersPreserved(p, s, step);
    ThreadsPreserved(p, s, step);
    AccountedPreserved(p, s, step);
    GuardsPreserved(p, s, step);
  }

  /** In every interleaving of any number of requests, cancels, watchers and accept loops the table agrees with
      the open sockets, provided Accept fails only on a closed listener. */
  lemma ReachableInv(p: Platform, s: Registry)
    requires Reachable(Forwards(p), EMPTY, s) && !p.spuriousAccept
    ensures Inv(p, s)
  {
    var inv := (s: Registry) => Inv(p, s);
    forall x, step | inv(x) && Forwards(p).enabled(x, step) ensures inv(Forwards(p).apply(x, step)) {
      StepKeepsInv(p, x, step);
    }
    ReachableKeeps(Forwards(p), inv, EMPTY, s);
  }
}
