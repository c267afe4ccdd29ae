/** `sessionCmd` of internal/sshserver/server.go in its own form, tied to the machine of SshSession. */
module SessionCmds {
  import opened SshSession

  /** The signals of a machine state, without the circumstances they were sent in. */
  function Names(sent: seq<Sent>): (names: seq<Signal>)
    ensures |names| == |sent| && forall i :: 0 <= i < |sent| ==> names[i] == sent[i].signal
  {
    seq(|sent|, i requires 0 <= i < |sent| => sent[i].signal)
  }

  class SessionCmd {
    var process: bool  // cmd.Process is set
    var reaped: bool
    var sent: seq<Signal>

    /** The object is in the state the machine says it is in. */
    ghost predicate Reflects(s: State)
      reads this
    {
      process == !s.child.NoChild? && reaped == s.reaped && sent == Names(s.sent)
    }

    constructor ()
      ensures !process && !reaped && sent == []
    {
      process, reaped, sent := false, false, [];
    }

    /** Holding the mutex, sends what the machine's watcher sends. */
    method SignalGroup(signal: Signal, ghost s: State, ghost waited: nat)
      requires Reflects(s)
      modifies this`sent
      ensures Reflects(s.(sent := Signalled(s, signal, waited)))
      ensures sent == old(sent) + if process && !reaped then [signal] else []
    {
      if reaped || !process {
        return;
      }
      sent := sent + [signal];
    }

    /** The tail of `wait`, holding the mutex: afterwards the machine's FLAG_SET statement is done. */
    method MarkReaped(ghost s: State)
      requires Reflects(s) && s.main == FLAG_SET
      modifies this`reaped
      ensures Reflects(Advanced(s)) && reaped
    {
      reaped := true;
    }
  }
}
