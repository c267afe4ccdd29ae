/** `loopbackForwardHandler` of internal/sshserver/forward.go in its own form: an object whose methods update the
    table and the sockets.  Each method, left uninterrupted, does what the goroutine's steps do in ForwardRegistry. */
module ForwardHandler {
  import opened ForwardRegistry
  import opened ForwardKeys
  import opened Options
  import opened Runs

  /** The handler's state with one goroutine running. */
  function With(forwards: map<string, nat>, sockets: seq<Listener>, th: Thread): Registry {
    Registry(forwards, sockets, [th], {})
  }

  function Closed(sockets: seq<Listener>, l: nat, cause: Cause): seq<Listener>
    requires l < |sockets|
  {
    sockets[l := sockets[l].(open := false, closedBy := Some(cause))]
  }

  lemma OpenRun(p: Platform, before: Registry, conn: nat, host: string, port: nat, bound: nat)
    requires before.threads == [Opening(conn, host, port)] && p.isLoopback(BindHost(host))
    requires 0 < bound <= MAX_PORT && (port == 0 || port == bound) && PortFree(before, p.resolve(BindHost(host)), bound)
    ensures var l := |before.listeners|;
      Reachable(Forwards(p), before, Registry(
        before.table[ForwardKey(host, bound) := l],
        before.listeners + [NewListener(p, conn, host, bound).(registered := true)], [Registered(l)], before.ended))
  {
    Stay(Forwards(p), before);
    var s := Go(Forwards(p), before, before, Act(0, Listen(bound)));
    s := Go(Forwards(p), before, s, Act(0, Register));
    assert s.threads == [Registered(|before.listeners|)];
  }

  lemma CloseRun(p: Platform, forwards: map<string, nat>, sockets: seq<Listener>, key: string, cause: Cause)
    requires key in forwards && forwards[key] < |sockets|
    ensures Reachable(Forwards(p), With(forwards, sockets, Closing(key, cause)),
                      With(forwards - {key}, Closed(sockets, forwards[key], cause), Finished))
  {
    var start := With(forwards, sockets, Closing(key, cause));
    Stay(Forwards(p), start);
    var s := Go(Forwards(p), start, start, Act(0, Unregister));
    assert s == With(forwards - {key}, sockets, Unregistered(forwards[key], cause));
    s := Go(Forwards(p), start, s, Act(0, CloseListener));
    assert s.threads == [Finished];
  }

  lemma MissRun(p: Platform, forwards: map<string, nat>, sockets: seq<Listener>, key: string, cause: Cause)
    requires key !in forwards
    ensures Reachable(Forwards(p), With(forwards, sockets, Closing(key, cause)), With(forwards, sockets, Finished))
  {
    var start := With(forwards, sockets, Closing(key, cause));
    Stay(Forwards(p), start);
    var s := Go(Forwards(p), start, start, Act(0, Unregister));
    assert s.threads == [Finished];
  }

  lemma LeaveRun(p: Platform, forwards: map<string, nat>, sockets: seq<Listener>, l: nat)
    requires l < |sockets|
    ensures var key := sockets[l].key;
      var left := if key in forwards && forwards[key] == l then forwards - {key} else forwards;
      Reachable(Forwards(p), With(forwards, sockets, Leaving(l)), With(left, sockets, Finished))
  {
    var start := With(forwards, sockets, Leaving(l));
    Stay(Forwards(p), start);
    var s := Go(Forwards(p), start, start, Act(0, LeaveAcceptLoop));
    assert s.threads == [Finished];
  }

  class LoopbackForwardHandler {
    var forwards: map<string, nat>
    var sockets: seq<Listener>

    ghost function View(th: Thread): Registry
      reads this
    {
      With(forwards, sockets, th)
    }

    ghost predicate Valid()
      reads this
    {
      && TableSound(View(Finished))
      && forall l :: 0 <= l < |sockets| ==> sockets[l].key == ForwardKey(sockets[l].host, sockets[l].port)
    }

    constructor ()
      ensures Valid() && forwards == map[] && sockets == []
    {
      forwards := map[];
      sockets := [];
    }

    /** `bound` is the outcome of net.Listen: the port it bound, or nothing when it failed. */
    method OpenForward(p: Platform, conn: nat, host: string, port: nat, bound: Option<nat>)
      returns (listener: nat, ok: bool)
      requires Valid()
      requires bound.Some? ==>
        && 0 < bound.value <= MAX_PORT && (port == 0 || port == bound.value)
        && PortFree(View(Finished), p.resolve(BindHost(host)), bound.value)
      modifies this
      ensures ok <==> p.isLoopback(BindHost(host)) && bound.Some?
      ensures !ok ==> forwards == old(forwards) && sockets == old(sockets)
      ensures ok ==>
        && Reachable(Forwards(p), old(View(Opening(conn, host, port))), View(Registered(listener)))
        && ForwardKey(host, bound.value) in forwards && forwards[ForwardKey(host, bound.value)] == listener
      ensures Valid()
    {
      var bindHost := host;
      if host in ANY_BIND_ADDRESSES {
        bindHost := LOOPBACK_IPV4;
      }
      if !p.isLoopback(bindHost) || bound.None? {
        return 0, false;
      }
      OpenRun(p, View(Opening(conn, host, port)), conn, host, port, bound.value);
      listener := |sockets|;
      var key := ForwardKey(host, bound.value);
      forwards := forwards[key := listener];
      sockets := sockets + [Listener(conn, host, p.resolve(bindHost), bound.value, key, true, true, None)];
      ok := true;
    }

    method CloseForward(key: string, cause: Cause, ghost p: Platform) returns (ok: bool)
      requires Valid()
      modifies this
      ensures Reachable(Forwards(p), old(View(Closing(key, cause))), View(Finished))
      ensures ok <==> key in old(forwards)
      ensures forwards == old(forwards) - {key}
      ensures sockets == if ok then Closed(old(sockets), old(forwards)[key], cause) else old(sockets)
      ensures Valid()
    {
      ok := key in forwards;
      if ok {
        CloseRun(p, forwards, sockets, key, cause);
        var listener := forwards[key];
        forwards := forwards - {key};
        sockets := sockets[listener := sockets[listener].(open := false, closedBy := Some(cause))];
      } else {
        MissRun(p, forwards, sockets, key, cause);
      }
    }

    /** A cancel takes down the listener the client named by requested host and bound port, and no other; without one
        it changes nothing. */
    method CancelForward(host: string, port: nat, ghost p: Platform) returns (ok: bool)
      requires Valid()
      modifies this
      ensures Reachable(Forwards(p), old(View(Closing(ForwardKey(host, port), ByCancel(host, port)))), View(Finished))
      ensures ok <==> ForwardKey(host, port) in old(forwards)
      ensures forwards == old(forwards) - {ForwardKey(host, port)}
      ensures |sockets| == |old(sockets)|
      ensures ok ==>
        && old(forwards)[ForwardKey(host, port)] < |sockets|
        && !sockets[old(forwards)[ForwardKey(host, port)]].open
      ensures !ok ==> sockets == old(sockets)
      ensures forall l :: 0 <= l < |sockets| && sockets[l] != old(sockets)[l] ==>
        old(sockets)[l].host == host && old(sockets)[l].port == port && old(sockets)[l].open && !sockets[l].open
      ensures Valid()
    {
      var key := ForwardKey(host, port);
      if key in forwards {
        var x := sockets[forwards[key]];
        ForwardKeyInjective(host, port, x.host, x.port);
      }
      ok := CloseForward(key, ByCancel(host, port), p);
    }

    /** The deferred section of an accept loop: it drops the entry only while the entry is this listener's. */
    method LeaveLoop(listener: nat, ghost p: Platform)
      requires Valid() && listener < |sockets|
      modifies this`forwards
      ensures Reachable(Forwards(p), old(View(Leaving(listener))), View(Finished))
      ensures forall k :: k in forwards ==> k in old(forwards) && forwards[k] == old(forwards)[k]
      ensures forall k :: k in old(forwards) && old(forwards)[k] != listener ==> k in forwards
      ensures listener !in forwards.Values
      ensures Valid()
    {
      LeaveRun(p, forwards, sockets, listener);
      var key := sockets[listener].key;
      if key in forwards && forwards[key] == listener {
        forwards := forwards - {key};
      }
    }
  }
}
