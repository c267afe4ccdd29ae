/** Particular runs of the reverse-forward table, from the empty one. */
module ForwardRuns {
  import opened ForwardRegistry
  import opened ForwardKeys
  import opened Options
  import opened Runs

  /** The machine in which only keys that satisfy `allow` are ever cancelled. */
  function Allowing(p: Platform, allow: string -> bool): Machine<Registry, Step> {
    Machine((s: Registry, step: Step) =>
              (step.CancelRequest? ==> allow(ForwardKey(step.host, step.port))) && Enabled(p, s, step),
            (s, step) => if Enabled(p, s, step) then Apply(p, s, step) else s)
  }

  lemma AllowedRunsAreRuns(p: Platform, allow: string -> bool, from: Registry, to: Registry)
    requires Reachable(Allowing(p, allow), from, to)
    ensures Reachable(Forwards(p), from, to)
  {
    ReachableWithin(Allowing(p, allow), Forwards(p), from, to);
  }

  lemma Acts(p: Platform, allow: string -> bool, x: Registry, t: nat, action: Action) returns (s: Registry)
    requires Reachable(Allowing(p, allow), EMPTY, x) && t < |x.threads| && CanAct(p, x, x.threads[t], action)
    ensures Reachable(Allowing(p, allow), EMPTY, s) && s == DoAct(p, x, t, action)
  {
    s := Go(Allowing(p, allow), EMPTY, x, Act(t, action));
  }

  /** One forward registered for `conn` on a free port: request, bind, register. */
  lemma RegisterOne(p: Platform, allow: string -> bool, x: Registry, conn: nat, host: string, port: nat)
    returns (s: Registry)
    requires Reachable(Allowing(p, allow), EMPTY, x) && conn !in x.ended
    requires p.isLoopback(BindHost(host)) && 0 < port <= MAX_PORT
    requires PortFree(x, p.resolve(BindHost(host)), port)
    ensures Reachable(Allowing(p, allow), EMPTY, s)
    ensures s == Registry(
      x.table[ForwardKey(host, port) := |x.listeners|],
      x.listeners + [NewListener(p, conn, host, port).(registered := true)],
      x.threads + [Registered(|x.listeners|)],
      x.ended)
  {
    var t := |x.threads|;
    s := Go(Allowing(p, allow), EMPTY, x, Request(conn, host, port));
    s := Acts(p, allow, s, t, Listen(port));
    s := Acts(p, allow, s, t, Register);
  }

  /** The forward of a goroutine that has just registered it is cancelled. */
  lemma CancelOnly(p: Platform, allow: string -> bool, x: Registry, host: string, port: nat) returns (s: Registry)
    requires Reachable(Allowing(p, allow), EMPTY, x) && allow(ForwardKey(host, port))
    requires x.table == map[ForwardKey(host, port) := 0] && |x.listeners| == 1
    ensures Reachable(Allowing(p, allow), EMPTY, s)
    ensures s == Registry(
      map[], [x.listeners[0].(open := false, closedBy := Some(ByCancel(host, port)))], x.threads + [Finished], x.ended)
  {
    s := Go(Allowing(p, allow), EMPTY, x, CancelRequest(host, port));
    s := Acts(p, allow, s, |x.threads|, Unregister);
    assert s.table == map[];
    s := Acts(p, allow, s, |x.threads|, CloseListener);
    assert s.threads == x.threads + [Finished];
  }
}
