# Lifecycle proofs for the remote-access sidecar

The repository is a WebSocket-to-TCP proxy (`internal/proxy`) and a loopback SSH server (`internal/sshserver`). Its
difficult part is concurrent lifecycle code: goroutines, locks, channels, timers and crash points whose order must be
right in every run. This project models that code in Dafny and proves what it promises, over all interleavings.

## How it is modelled

A component whose goroutines interleave is a state machine. Every goroutine has a program counter, and a step is one
action no other goroutine can interrupt: one system call, one channel operation, or one critical section. `Runs` defines
machines, legal runs, reachability and infinite runs. `Fairness` proves once that a weakly fair run whose rank never
grows, and falls whenever a distinguished able process moves, comes to an end; every liveness result uses it, and for
each machine a lemma shows that a process counted as able has a step to take. `Counting` sums over goroutines.

Objects that update their own fields are classes with the same fields, and loops are methods with loops:
`LoopbackForwardHandler`, `SessionCmd`, `SessionManager`, `Sessions`, `TargetHealth`, `Publisher`, the pumps of the
bridge, the host-key start over a mutable disk, and the environment functions. Methods of `LoopbackForwardHandler`,
`SessionCmd`, `SessionManager`, `Sessions` and `Publisher` are proved to do what the goroutine's steps do in the machine,
`SessionManager.Acquire` under any interference, so that what is proved of the machine is about them.

| files | component |
|---|---|
| `ForwardKeys`, `ForwardRegistry`, `ForwardGuards`, `ForwardRuns`, `ForwardDrain`, `ForwardReclaim`, `ForwardIsolation`, `ForwardHandler` | the reverse-forward table shared by all SSH connections |
| `SshSession`, `SshSessionProperties`, `SessionCmd` | one shell or exec session: signals, reaping, terminal, slot |
| `ProxySession`, `ProxyTeardown`, `MaxDuration`, `HardCap`, `Keepalive`, `SilentPeer`, `Bridge` | one proxied connection |
| `Prober`, `ProberStop`, `ProberClock`, `ProberDeadline`, `TargetHealth` | the target prober |
| `HostKey` | creating the host key on a disk that can lose power |
| `ProxyAdmission`, `SshAdmission` | the two admission counters |
| `Environment` | the environment of a session |

## What is assumed of the outside

- Reverse forwards: an address and port held by an open listener cannot be bound again; the address a request binds is a
  function of the requested host; Accept fails only on a closed listener. The last one is a field of `Platform`:
  `LeaksIff` shows that a listener can leak exactly without it, and `OrphansStayOpen` that it then leaks for good.
- SSH session: SIGKILL ends the child and its output; window changes stop arriving once the client is gone; starting the
  command and reporting its status with `session.Exit` return.
- Proxied connection: a closed connection fails reads and writes on it at once, and the dial returns, for which it has
  five seconds. Nothing is assumed of an open connection, except for a silent peer: no read succeeds past its deadline,
  it then returns, and so do writes to the target. For the maximum duration: timers fire when due, a library write ends
  by its deadline, and the write mutex is granted in arrival order or, in the untimed machine, to a callback that finds
  it free again and again.
- Prober: a probe ends within its timeout. That a stop returns follows from the validated configuration in real time; in
  the untimed machine it needs that a select which finds the cancel ready again and again takes it at last.
- Host key: a generated key parses; a rename is atomic; a flushed file survives a power loss; an entry of a directory,
  and the directory's own entry above it, comes back as last flushed or as it last was, and a file never flushed with
  any contents at all; the file found at the path on the very first start, if any, is itself flushed.
- Liveness results assume weak fairness: nobody who stays able to move is passed over forever. For the machines in real
  time a lemma each shows that time never stops, so that no bound holds for want of a run.

## Where the code and what is said about it differ

- The comment on `sessionCmd` promises that no signal is sent after the child is reaped. `cmd.Wait` reaps before the
  flag is set, so one can be: `SignalCanFollowReap` gives the run, `SignalsAreOrderly` shows the gap is the only place.
- A forward can be closed on another connection's behalf, because both the watcher and the failure path of
  `startForward` close by key. `ReusedKeyLosesIsolation` and `FailedStartLosesIsolation` give the runs.
  `CloseIsForeignIff` and `ForeignCloseIff` say exactly when a goroutine closes what is not its own, and
  `IsolationLostIff` exactly which keys can be affected in any run: those that may be cancelled.
- Only the stop call that sets `proberStopped` waits for the prober: `SecondStopDoesNotWait` gives the run, `StopWaitsIff`
  the exact condition. That it returns does not follow from fair scheduling of goroutines alone:
  `UnfairSelectNeverStops` gives the run, `StopReturnsIff` the exact condition. In real time the validated interval is
  what bounds it: `StopIsBoundedIff`.
- A first start that has to make the key's directory flushes that directory but not the entry above it, so its key can
  be lost with the directory although every call succeeded and the key was returned: `DirectoryTakesKeyAlong` gives the
  run, `SurvivesIff` and `FirstKeyIsKeptIff` the exact conditions.
- The configuration checks that the ping interval is below the ping timeout; `KeepaliveIff` shows what is really needed.
- The SSH session counter turns sessions away while slots are free (`RejectedThoughFree`); the proxy's never does.
- The bridge drops bytes that a read returns together with an error (`NothingLostIff`).

## Model

| member | source | states |
|---|---|---|
| `ForwardKeys.ForwardKeyInjective` | internal/sshserver/forward.go:260-262 | two requests with different host or port never share a table key, whatever colons and brackets the hosts contain |
| `ForwardKeys.SplitAddrUndoesForwardKey` | internal/sshserver/forward.go:260-271 | splitting a key gives back host and port if and only if the host has no bracket in it |
| `ForwardKeys.ItoaIsDecimal` | internal/sshserver/forward.go:260-262 | the port in a key is decimal notation: each digit from the right counts the next power of ten |
| `ForwardKeys.SplitAddrOfBareHost` | internal/sshserver/forward.go:264-268 | an address without a port comes back whole, with port 0 |
| `ForwardRegistry.RegisterFindsKeyFree` | internal/sshserver/forward.go:143-147 | registration never overwrites an entry: the key it writes is free |
| `ForwardRegistry.StepKeepsInv` | internal/sshserver/forward.go:89-258 | every step of requests, cancels, watchers, closers and accept loops keeps the table, sockets and goroutines in agreement |
| `ForwardRegistry.ReachableInv` | internal/sshserver/forward.go:89-258 | so every reachable state, for any number of connections and goroutines, satisfies that invariant |
| `ForwardDrain.TableAgreesWithSockets` | internal/sshserver/forward.go:120-156 | in every reachable state an entry is an open listener under its requested host and bound port, every listener is on loopback, and an open listener is in the table if and only if no goroutine is carrying it to registration or to its close |
| `ForwardDrain.QuiescenceIsEmpty` | internal/sshserver/forward.go:89-115 | when requests, watchers and closers have returned, the table is empty and every listener ever opened is closed |
| `ForwardDrain.SomeoneIsAble` | internal/sshserver/forward.go:89-258 | no deadlock: with all connections ended, some goroutine can move until all have returned |
| `ForwardDrain.ForwardsDrain` | internal/sshserver/forward.go:89-258 | once every connection has ended and no request arrives, every weakly fair run reaches an empty table, all listeners closed and all goroutines returned |
| `ForwardDrain.AcceptLoopRemovesNothing` | internal/sshserver/forward.go:187-193 | when Accept fails only on closed listeners, the deferred delete of an accept loop leaves the table as it is |
| `ForwardDrain.SpuriousErrorOrphans` | internal/sshserver/forward.go:187-199 | where Accept may fail on an open listener: in every state reached before the first such error, one failed Accept of any accept loop whose listener is in the table leaves it open and unknown to table and closers |
| `ForwardDrain.FirstAcceptOrphans` | internal/sshserver/forward.go:187-199 | the leak from nothing: one forward opened, for any host and port that can be bound, and its first Accept failing |
| `ForwardDrain.LeaksIff` | internal/sshserver/forward.go:180-199 | wherever anything can be forwarded, some run leaks a listener if and only if Accept may fail on one nobody closed |
| `ForwardDrain.OrphansStayOpen` | internal/sshserver/forward.go:161-170 | and no later cancel, watcher or end of connection ever closes it |
| `ForwardReclaim.EndedForwardIsClosed` | internal/sshserver/forward.go:107-110 | in every weakly fair run, with other connections requesting and cancelling forever, each listener whose own connection has ended is eventually closed |
| `ForwardReclaim.EndedForwardIsForgotten` | internal/sshserver/forward.go:89-258 | and every goroutine at work for it returns in that busy run: request, watcher, closer and accept loop |
| `ForwardReclaim.StepDescends` | internal/sshserver/forward.go:89-258 | every step either brings such a listener closer to its close or leaves the goroutine that has it in hand able and where it was |
| `ForwardIsolation.IsolatedWhenKeysNotReused` | internal/sshserver/forward.go:101-112 | in a run that registers no key twice, a forward is closed only by a cancel naming it, its own failed start or its own connection's end |
| `ForwardIsolation.IsolatedWhenNobodyCancels` | internal/sshserver/forward.go:101-112 | the same in every run without cancel requests, although keys are reused after connections end |
| `ForwardIsolation.ForeignCloseNeedsCancel` | internal/sshserver/forward.go:101-112 | in every run, a forward not closed on its own behalf has its key in common with one that a cancel closed |
| `ForwardIsolation.IsolationLostIff` | internal/sshserver/forward.go:101-170 | among the runs that cancel only keys of a given set, some run closes a forward for this host and port on another's behalf if and only if its key is in the set |
| `ForwardIsolation.CloseIsForeignIff` | internal/sshserver/forward.go:245-258 | a goroutine closing by key, on any path, closes a listener on another's behalf if and only if no cancel sent it and the listener under the key is not the one it was to close |
| `ForwardIsolation.ForeignCloseIff` | internal/sshserver/forward.go:101-112 | a goroutine bound to close one listener, as watcher or on the failure path, can close another if and only if that one now holds its key |
| `ForwardIsolation.ReusedKeyLosesIsolation` | internal/sshserver/forward.go:107-110 | for every admissible host and port there is a run in which connection 1's end closes connection 2's forward |
| `ForwardIsolation.FailedStartLosesIsolation` | internal/sshserver/forward.go:101-105 | likewise a run, with no connection ended, in which connection 1's failing start closes connection 2's forward |
| `ForwardIsolation.ReportedDestinationCancels` | internal/sshserver/forward.go:161-209 | while a forward is registered, a cancel takes it down if and only if it names the destination reported on its forwarded-tcpip channels (section 7.2 of RFC 4254) |
| `ForwardIsolation.BindsWhatWasAsked` | internal/sshserver/forward.go:120-144 | a request can be bound to a port if and only if the host it stands for is loopback, the port is free there and is the one asked for, or any was |
| `ForwardIsolation.OpenForwardAccepts` | internal/sshserver/forward.go:195-212 | in every reachable state an accept loop can take one more connection if and only if its listener is open, and is then where it was; it fails if and only if it is closed |
| `ForwardHandler.LoopbackForwardHandler.OpenForward` | internal/sshserver/forward.go:120-156 | opens if and only if the policy admits the address to be bound and the bind succeeds, does what the machine's bind and register steps do, and changes nothing otherwise |
| `ForwardHandler.LoopbackForwardHandler.CloseForward` | internal/sshserver/forward.go:245-258 | removes the entry and closes exactly its listener, as the machine's steps do, or reports that there is none |
| `ForwardHandler.LoopbackForwardHandler.CancelForward` | internal/sshserver/forward.go:161-170 | does the machine's cancel: the entry is gone and its listener closed, no listener changes but one opened for that very host and port, and without an entry nothing changes |
| `ForwardHandler.LoopbackForwardHandler.LeaveLoop` | internal/sshserver/forward.go:187-193 | the accept loop's listener is in no entry afterwards, and every entry of another listener is untouched |
| `SshSession.StepKeepsInv` | internal/sshserver/server.go:204-480 | every step of main goroutine, watcher, resizer, kernel, client and clock keeps the session invariant |
| `SshSessionProperties.SignalsAreOrderly` | internal/sshserver/server.go:249-315 | in every run nothing is signalled while the client is connected; at most one SIGHUP, then at most one SIGKILL and that five seconds later or more; none with the flag set; and a signal meets a reaped child if and only if it falls between reap and flag |
| `SshSessionProperties.NoSignalAfterWait` | internal/sshserver/server.go:259-315 | once `wait` has returned, no continuation of the run sends a signal, whichever ready select branch is taken |
| `SshSessionProperties.SignalCanFollowReap` | internal/sshserver/server.go:232-268 | with and without a terminal there is a run in which a signal is sent to the group of a child already reaped |
| `SshSessionProperties.SlotOutlivesChild` | internal/sshserver/server.go:204-230 | a slot has been released only if the outcome was reported and no child was started, or the child is reaped, the flag set and the watcher gone |
| `SshSessionProperties.TerminalClosedAfterResizer` | internal/sshserver/server.go:357-424 | the terminal is never resized after it is closed, and is closed only after the resizer ended |
| `SshSessionProperties.DisconnectedSessionEnds` | internal/sshserver/server.go:283-480 | after a disconnect every weakly fair run, on either path, releases the slot, with the child reaped and the watcher gone |
| `SshSessionProperties.FinishedSessionEnds` | internal/sshserver/server.go:204-480 | a session whose command has exited and whose output is closed releases its slot in every weakly fair run, its client connected or not, once no more window changes come in |
| `SshSessionProperties.ResizesAreApplied` | internal/sshserver/server.go:380-424 | in every run each window change that arrived is waiting, being applied or applied, none twice, and so is the first size |
| `SshSessionProperties.FailedStartReleases` | internal/sshserver/server.go:369-461 | a start that fails is reported and gives the slot back with nothing left running |
| `SessionCmds.SessionCmd.SignalGroup` | internal/sshserver/server.go:249-257 | sends exactly what the machine's watcher sends: nothing once reaped or without a process |
| `SessionCmds.SessionCmd.MarkReaped` | internal/sshserver/server.go:263-265 | performs the machine's flag step |
| `ProxySession.StepKeepsInv` | internal/proxy/session.go:86-180 | every step of main, ping loop, bridge runner, pumps and timers keeps the session invariant |
| `ProxyTeardown.SendsNeverBlock` | internal/proxy/bridge.go:52-73 | in every run a goroutine about to send on an error channel finds room in it |
| `ProxyTeardown.ReturnMeansTornDown` | internal/proxy/session.go:89-157 | when `Run` has returned its duration was recorded once, and after a dial the ping loop has ended, both connections are closed and the context is cancelled |
| `ProxyTeardown.TimersAreInPlace` | internal/proxy/session.go:114-147 | in every run: in the select ping loop, timer and bridge are started; a fired timer's callback has armed the grace timer when it is over; the grace timer and a ping loop's end cancel; an unfired timer is stopped on return |
| `ProxyTeardown.OpenSessionCarries` | internal/proxy/bridge.go:76-138 | with the connections open, a message each way and a ping lead from every reachable state back to it, so they can go on forever |
| `ProxyTeardown.SessionGetsToWork` | internal/proxy/session.go:86-147 | a session can get to where all of that goes on |
| `ProxyTeardown.EveryCallMayFail` | internal/proxy/bridge.go:95-138 | in every reachable state a read or write in hand can fail |
| `ProxyTeardown.FailedDialReturns` | internal/proxy/session.go:100-109 | a failed dial returns with nothing started and the duration recorded |
| `ProxyTeardown.SessionEnds` | internal/proxy/session.go:86-180 | once the context is cancelled, a pump has stopped or the start failed, every weakly fair run ends main, ping loop, runner and both pumps |
| `ProxyTeardown.EveryCauseEnds` | internal/proxy/session.go:129-180 | each of these ends the whole session in every weakly fair run: the grace timer, a failed ping, the end of the request, a failed read or write of either pump |
| `MaxDuration.MaxDurationEndsSession` | internal/proxy/session.go:129-142 | once the max-duration timer has fired, every weakly fair run with a fair write mutex ends all goroutines, whatever traffic goes on |
| `HardCap.SessionIsCapped` | internal/proxy/session.go:129-142 | for every schedule of data, ping and close writers the context is cancelled or `Run` has returned by MaxSessionDuration plus two write timeouts plus the grace period after arming |
| `HardCap.CapIsAttained` | internal/proxy/session.go:129-180 | a run in which the cancel comes no earlier than that bound, for every duration |
| `HardCap.TimeGoesOn` | internal/proxy/session.go:129-142 | from every reachable state time can go on, so the cap holds for no want of runs |
| `HardCap.FewAhead` | internal/proxy/bridge.go:76-92 | at most two writers ever stand before the close frame |
| `Keepalive.KeepaliveIff` | internal/proxy/session.go:95-180 | a peer that answers is never timed out, in any run, if and only if dial time, ping interval and pong delay together fit in the ping timeout |
| `Keepalive.TimeGoesOn` | internal/proxy/session.go:95-180 | from every reachable state that is not timed out time can go on with the peer answering |
| `Keepalive.DeadPeerIsDropped` | internal/proxy/session.go:95-102 | if no pong is handled after some instant, every later state more than the ping timeout past it is timed out; exactly, past the last handled pong or the start |
| `Keepalive.TimedOutForGood` | internal/proxy/session.go:95-102 | a session past its read deadline stays so |
| `SilentPeer.SilentPeerEndsSession` | internal/proxy/session.go:95-102 | over a session and its clock together: if no pong is handled from some instant on and the ping timeout goes by, every weakly fair run ends main, ping loop, runner and both pumps, whether the pump was reading or writing |
| `Bridge.CopyWSToTCP` | internal/proxy/bridge.go:95-117 | bytes written are the in-order concatenation of the binary messages, plus what a failed last write let through; the counter is the bytes of completed writes; how the pump ends is determined in every case |
| `Bridge.CopyTCPToWS` | internal/proxy/bridge.go:120-138 | each frame is one read's bytes despite the reused buffer; frames concatenate to the bytes read before the error; the counter agrees |
| `Bridge.NothingLostIff` | internal/proxy/bridge.go:124-130 | every byte the target sent reaches the client if and only if the read that ends the pump brought no data with its error |
| `Bridge.ChunkingIsInvisible` | internal/proxy/bridge.go:120-138 | the same stream cut differently gives the client the same bytes |
| `Bridge.TunnelIsTransparent` | internal/proxy/bridge.go:95-138 | what one pump frames the other writes out byte for byte, with text messages in between or not |
| `Prober.StepKeepsInv` | internal/proxy/targethealth.go:61-135 | every step of any number of start and stop calls and of the prober keeps the prober invariant |
| `Prober.ProberIsOrderly` | internal/proxy/targethealth.go:81-135 | at most one prober is ever created; gauge and recorded result agree except between the two writes; the stop that set the flag returns only when the prober has ended or can never exist |
| `Prober.NoResultIsLost` | internal/proxy/targethealth.go:61-78 | until a stop cancels, every finished probe was recorded or is about to be |
| `Prober.StopIsFinal` | internal/proxy/targethealth.go:120-135 | after that stop returned, no continuation creates a prober or changes result or gauge |
| `Prober.StartAfterStopCreatesNone` | internal/proxy/targethealth.go:89-93 | once stopped without a prober, no start ever creates one |
| `Prober.StopWaitsIff` | internal/proxy/targethealth.go:120-135 | a stop call entering while a prober is claimed and not ended returns in no continuation before the prober's end if and only if `proberStopped` is not set yet |
| `Prober.SecondStopDoesNotWait` | internal/proxy/targethealth.go:121-125 | a run in which a second stop has returned and the prober is about to change the result |
| `ProberStop.StopReturns` | internal/proxy/targethealth.go:98-135 | under a fair select every stop call returns in every weakly fair run, whatever other calls and ticks come in |
| `ProberStop.StopReturnsIff` | internal/proxy/targethealth.go:109-135 | in a weakly fair run the first stop returns if and only if the select that finds the cancel again and again takes it at last |
| `ProberStop.UnfairSelectNeverStops` | internal/proxy/targethealth.go:109-113 | a weakly fair run in which the select always takes the tick and the stop waits forever |
| `ProberDeadline.StopIsBoundedIff` | internal/proxy/config.go:100-105 | in every run the prober has ended by one probe timeout after the cancel, whichever ready branch its select takes, if and only if the interval exceeds the probe timeout |
| `ProberDeadline.TimeGoesOn` | internal/proxy/targethealth.go:98-115 | from every reachable state time can go on, and a cancelled prober can end without letting any pass |
| `ProberClock.ResultIsFresh` | internal/proxy/targethealth.go:98-115 | after the first record the cached result is never older than interval plus probe timeout, for every interval |
| `ProberClock.TimeGoesOn` | internal/proxy/targethealth.go:98-115 | from every reachable state time can go on, with a result recorded |
| `ProberClock.NoTickLostIff` | internal/proxy/config.go:100-105 | no run loses a tick if and only if the interval is at least the probe timeout |
| `TargetHealths.TargetHealth.Record` | internal/proxy/targethealth.go:33-44 | the new snapshot, with an error text only for an unreachable target |
| `TargetHealths.Publisher.ProbeOnce` | internal/proxy/targethealth.go:61-78 | a cancelled probe changes nothing, any other publishes what it found in cache and gauge, as the machine's steps do from the start of the probe, and the two agree after both |
| `HostKey.PowerLossIsClean` | internal/sshserver/hostkey.go:64-89 | a power loss, of the whole directory too, leaves the path as it was or, if it was not durable, absent |
| `HostKey.SurvivesIff` | internal/sshserver/hostkey.go:110-121 | a key survives every power loss if and only if its entry was flushed and its directory's own entry is on stable storage |
| `HostKey.UnflushedRenameTears` | internal/sshserver/hostkey.go:64-68 | renaming before flushing could leave any contents at the path |
| `HostKey.WriteAndSync` | internal/sshserver/hostkey.go:93-108 | succeeds if and only if chmod, write, flush and close all do, and then the temporary file holds all contents, flushed; no other file or entry changes |
| `HostKey.WriteHostKeyAtomically` | internal/sshserver/hostkey.go:69-89 | exactly when it succeeds; whatever call fails or dies, the path is absent or complete; a reported failure leaves the path absent and, if the removal goes through, no temporary file; other files are untouched; after success the entry is flushed if and only if the directory's flush went through |
| `HostKey.SyncDir` | internal/sshserver/hostkey.go:112-121 | never fails the caller, flushes the directory's entries when both its calls succeed, and changes nothing else, the directory's own entry included |
| `HostKey.LoadOrCreateHostKey` | internal/sshserver/hostkey.go:32-62 | from any disk does what `Start` says, and exactly when it returns a key: an existing file is loaded or refused and never altered; a new one is complete and returned only if it is there; an error leaves no entry behind if the removal goes through; the directory is made if missing and its own entry never flushed |
| `HostKey.RunBoots` | internal/sshserver/hostkey.go:32-121 | any sequence of starts, failures, deaths and power losses is a history the lemmas below speak of |
| `HostKey.NeverPartial` | internal/sshserver/hostkey.go:64-89 | throughout a history the path holds nothing, the first file, or one complete generated key |
| `HostKey.KeyIsForever` | internal/sshserver/hostkey.go:28-62 | once entry and directory are durable, every later start that can read and parse the file returns that key and generates none |
| `HostKey.CreatedKeyIsDurableIff` | internal/sshserver/hostkey.go:45-62 | a start that returned a new key leaves it durable if and only if its directory flush went through and the directory was on stable storage before |
| `HostKey.FirstKeyIsKeptIff` | internal/sshserver/hostkey.go:45-89 | such a key is returned by every later start that returns one, in every history with any power losses, if and only if that condition held |
| `HostKey.FirstKeyIsKept` | internal/sshserver/hostkey.go:28-62 | in a history, under that condition, every later start with a working read returns it |
| `HostKey.DirectoryTakesKeyAlong` | internal/sshserver/hostkey.go:50-88 | the run from no directory: two starts whose every call succeeds, a power loss between them, and each returns the key it generated itself |
| `ProxyAdmission.SlotsAreBounded` | internal/proxy/server.go:169-205 | in every interleaving the counter is the slots held, within the cap, and the gauge of active connections is the requests being served and never exceeds it |
| `ProxyAdmission.SlotIsGivenBack` | internal/proxy/server.go:180-205 | in every weakly fair run a slot once taken is given back, after a failed upgrade and after a session |
| `ProxyAdmission.RequestIsServed` | internal/proxy/server.go:169-205 | wherever there is a slot at all a request can be served, counted in both |
| `ProxyAdmission.CapIsConfiguredIff` | internal/proxy/session.go:28-32 | the cap in force is the configured one if and only if that fits in int32 |
| `ProxyAdmission.Int32Wraps` | internal/proxy/session.go:28-32 | the conversion gives the one int32 congruent to the configured value |
| `ProxyAdmission.RefinesAtomicCounter` | internal/proxy/session.go:35-50 | every step of the retry loop is a step of an atomic bounded counter; a refusal happens only when no slot is free |
| `ProxyAdmission.RunsRefineAtomicCounter` | internal/proxy/session.go:35-50 | hence every run, seen through claims, refusals and releases, is a run of that counter |
| `ProxyAdmission.RetriesAreBounded` | internal/proxy/session.go:35-45 | a caller's failed swaps never outnumber the updates others completed since its call began |
| `ProxyAdmission.SessionManager.Acquire` | internal/proxy/session.go:35-45 | under any interference, does the machine's loads and swaps, succeeds or fails on the value of its last load, and every earlier load was overtaken |
| `ProxyAdmission.SessionManager.Release` | internal/proxy/session.go:48-50 | gives back one slot |
| `SshAdmission.SlotsAreBounded` | internal/sshserver/server.go:320-337 | in every interleaving the counter is holders plus attempts being undone, holders stay within a positive limit, and with no attempt in between the two are equal |
| `SshAdmission.RejectedIff` | internal/sshserver/server.go:324-327 | a session is turned away if and only if holders and undoing attempts together had reached the limit |
| `SshAdmission.RejectedThoughFree` | internal/sshserver/server.go:324-327 | for every limit there is a run in which a session is turned away while every slot is free |
| `SshAdmission.EveryAttemptSettles` | internal/sshserver/server.go:204-230 | in every weakly fair run each attempt is undone or its slot given back |
| `SshAdmission.Sessions.AcquireSession` | internal/sshserver/server.go:320-329 | undisturbed, does the machine's add and undo: takes a slot if and only if one is free or there is no limit, and a failed call leaves no trace |
| `SshAdmission.Sessions.ReleaseSession` | internal/sshserver/server.go:332-337 | gives back what `AcquireSession` took |
| `Environment.LookupEnv` | internal/sshserver/shell.go:135-143 | the value of the first entry with the prefix, which for a name without an equals sign is the first entry setting it |
| `Environment.Collect` | internal/sshserver/shell.go:63-70 | the map holds, for every key set at all, the value of its last entry |
| `Environment.MergeEnv` | internal/sshserver/shell.go:63-76 | for every order in which the map is walked, keys are unique and lookup gives the last match of process then client variables |
| `Environment.WithPasswdFallback` | internal/sshserver/shell.go:89-116 | a missing HOME becomes the account's home directory, a missing USER and LOGNAME its user name, each if not empty; every other lookup and all entries are unchanged, and unique keys stay unique |
| `Environment.UniqueKeysReadAlike` | internal/sshserver/shell.go:135-143 | with unique keys, reading by first match and by last match agree |
| `Environment.SessionWorkingDir` | internal/sshserver/shell.go:122-131 | the home directory if it is set and a directory, else none |
| `Environment.SessionEnv` | internal/sshserver/server.go:218-220 | the environment of a session has unique keys, and reading it from either end gives client, then process, then account values |
| `Environment.TerminalLookup` | internal/sshserver/server.go:364-367 | the child on a terminal sees TERM as requested and COLORTERM as truecolor, and every other variable as before |
| `Environment.TerminalReadsAlikeIff` | internal/sshserver/server.go:364-367 | with the terminal variables appended, both readings agree on a key if and only if no earlier entry contradicts the appended one |

## Left out

- gorilla/websocket, gliderlabs/ssh, x/crypto, sftp and pty: seen only through the assumptions above; automatic pong and close replies that bypass the write mutex are not modelled.
- Key generation, PEM and PKCS#8 encoding: opaque bytes.
- Environment-variable parsing, defaults, flags, both main.go files and the fallback for a prober interval that is not positive: plumbing.
- HTTP responses, metrics registration, logging and JSON: no hard property.
- `exitCode`, `buildShellCommand`, `resolveShell`, the revalidator: settled by reading one branch.
- SFTP, relay copies of forwarded channels, the stdin copies of sessions, the read limit, device and stat checks: foreign calls around little logic.
- The parsing of addresses in the loopback policy: a predicate of the platform, since net.ParseIP is not part of this model.
- Two processes creating the host key at the same time: the model has one process at a time.
- SilentPeer.SilentPeerEndsSession: assumes that writes to the target return, since the code sets no deadline for them; a pump blocked in one forever notices nothing.
- HardCap.SessionIsCapped: bounds the cancel, not how long teardown takes after it, which is bounded by fairness alone in ProxyTeardown.SessionEnds.
- ProxyAdmission.SessionManager.Release: plain subtraction; that only holders release is a property of the handlers, proved in ProxyAdmission.SlotsAreBounded.
- SshAdmission.Sessions.AcquireSession: the 64-bit width of the counter is not modelled, because it would take 2^63 simultaneous sessions to matter.
