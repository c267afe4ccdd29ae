/** `targetHealth` and `probeOnce` of internal/proxy/targethealth.go in their own form. */
module TargetHealths {
  import opened Options
  import opened Runs
  import P = Prober

  /** A probe's error text, or nothing when the target answered. */
  type ProbeResult = Option<string>

  datatype Snapshot = Snapshot(checked: bool, reachable: bool, at: nat, err: string)

  class TargetHealth {
    var checked: bool
    var reachable: bool
    var at: nat
    var err: string

    /** Before the first record nothing is claimed; afterwards an error text goes with an unreachable target. */
    ghost predicate Valid()
      reads this
    {
      (!checked ==> !reachable && err == "") && (reachable ==> err == "")
    }

    function View(): Snapshot
      reads this
    {
      Snapshot(checked, reachable, at, err)
    }

    constructor ()
      ensures Valid() && !checked
    {
      checked, reachable, at, err := false, false, 0, "";
    }

    method Record(result: ProbeResult, now: nat)
      modifies this
      ensures Valid()
      ensures View() == Snapshot(true, result.None?, now, if result.None? then "" else result.value)
    {
      checked := true;
      reachable := result.None?;
      at := now;
      err := "";
      if result.Some? {
        err := result.value;
      }
    }
  }

  /** The machine's prober after one probe: dropped, or recorded and published. */
  function Probed(s: P.State, ok: bool, cancelled: bool): P.State {
    if cancelled then s.(prober := P.Selecting, finished := s.finished + 1)
    else s.(prober := P.Selecting, checked := true, reachable := ok, gauge := ok,
            finished := s.finished + 1, recorded := s.recorded + 1)
  }

  lemma ProbeRun(s: P.State, ok: bool, cancelled: bool)
    requires s.prober == P.Probing && (cancelled ==> s.cancelled)
    ensures Reachable(P.PROBERS, s, Probed(s, ok, cancelled))
  {
    Stay(P.PROBERS, s);
    var x := Go(P.PROBERS, s, s, P.ByProber(P.ProbeEnds(ok)));
    if cancelled {
      x := Go(P.PROBERS, s, x, P.ByProber(P.Drop));
      assert x == Probed(s, ok, cancelled);
    } else {
      KeptRun(s, x, ok);
    }
  }

  /** A result that is kept is recorded, then published. */
  lemma KeptRun(s: P.State, x: P.State, ok: bool)
    requires Reachable(P.PROBERS, s, x) && x == s.(prober := P.Deciding(ok), finished := s.finished + 1)
    ensures Reachable(P.PROBERS, s, Probed(s, ok, false))
  {
    var y := Go(P.PROBERS, s, x, P.ByProber(P.Keep(true)));
    y := Go(P.PROBERS, s, y, P.ByProber(P.Record));
    y := Go(P.PROBERS, s, y, P.ByProber(P.Publish));
    assert y == Probed(s, ok, false);
  }

  class Publisher {
    const health: TargetHealth
    var gauge: real

    /** The metric agrees with the cached result. */
    ghost predicate Agrees()
      reads this, health
    {
      health.Valid() && (health.checked ==> gauge == if health.reachable then 1.0 else 0.0)
    }

    /** Cache and metric are what the machine says they are. */
    ghost predicate Reflects(s: P.State)
      reads this, health
    {
      health.checked == s.checked && health.reachable == s.reachable && gauge == (if s.gauge then 1.0 else 0.0)
    }

    constructor ()
      ensures Reflects(P.INITIAL)
      ensures Agrees() && fresh(health) && !health.checked && gauge == 0.0
    {
      health := new TargetHealth();
      gauge := 0.0;
    }

    /** One probe: a cancelled one leaves no trace, any other publishes its result in both places, as the prober of the
        machine does from the start of the probe. */
    method ProbeOnce(result: ProbeResult, cancelled: bool, now: nat, ghost s: P.State)
      requires Agrees() && Reflects(s) && s.prober == P.Probing && (cancelled ==> s.cancelled)
      modifies this`gauge, health
      ensures Agrees()
      ensures Reflects(Probed(s, result.None?, cancelled))
      ensures Reachable(P.PROBERS, s, Probed(s, result.None?, cancelled))
      ensures cancelled ==> health.View() == old(health.View()) && gauge == old(gauge)
      ensures !cancelled ==>
        health.View() == Snapshot(true, result.None?, now, if result.None? then "" else result.value)
    {
      ProbeRun(s, result.None?, cancelled);
      if cancelled {
        return;
      }
      health.Record(result, now);
      if result.Some? {
        gauge := 0.0;
        return;
      }
      gauge := 1.0;
    }
  }
}
