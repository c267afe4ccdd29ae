/** The two pumps of internal/proxy/bridge.go.  What the peers and the network do is given as a script: the outcome of
    each read and of each write, in order; a pump that outlives its script is observed at that point. */
module Bridge {
  import opened Bytes

  const TCP_READ_BUFFER_SIZE := 32 * 1024

  datatype ReadError = NoError | EndOfFile | OtherError

  /** One `Read` on the TCP connection.  The interface allows data and an error in the same call. */
  datatype TcpRead = TcpRead(data: seq<Byte>, error: ReadError)

  /** One `ReadMessage` on the WebSocket. */
  datatype WsRead = Message(binary: bool, data: seq<Byte>) | ClosedCleanly | Failed

  datatype Outcome = Running | EndedCleanly | ReadFailed | WriteFailed

  function Concat(chunks: seq<seq<Byte>>): seq<Byte> {
    if chunks == [] then [] else Concat(chunks[..|chunks| - 1]) + chunks[|chunks| - 1]
  }

  lemma ConcatAppend(chunks: seq<seq<Byte>>, chunk: seq<Byte>)
    ensures Concat(chunks + [chunk]) == Concat(chunks) + chunk
  {
    assert (chunks + [chunk])[..|chunks|] == chunks;
  }

  /** All bytes the TCP peer delivered in the given reads. */
  function Delivered(arrivals: seq<TcpRead>): seq<Byte> {
    if arrivals == [] then [] else Delivered(arrivals[..|arrivals| - 1]) + arrivals[|arrivals| - 1].data
  }

  /** All bytes of the binary messages among the given reads. */
  function Payload(arrivals: seq<WsRead>): seq<Byte> {
    if arrivals == [] then []
    else
      var last := arrivals[|arrivals| - 1];
      Payload(arrivals[..|arrivals| - 1]) + if last.Message? && last.binary then last.data else []
  }

  // ---- WebSocket to TCP

  /** The outcome of one `Write` on the TCP connection: how many bytes got out, and whether it succeeded. */
  datatype Written = Written(n: nat, ok: bool)

  /** A write never gets out more than it was given, and one that gets out less has failed. */
  predicate Proper(read: WsRead, write: Written) {
    read.Message? ==> write.n <= |read.data| && (write.ok ==> write.n == |read.data|)
  }

  /** `writes[i]` is what becomes of the write of the i-th message.  Text messages are skipped.  `handled` reads were
      passed on in full; `partial` is what a failed write let through. */
  method CopyWSToTCP(arrivals: seq<WsRead>, writes: seq<Written>)
    returns (tcp: seq<Byte>, counter: nat, outcome: Outcome, handled: nat, partial: seq<Byte>)
    requires |writes| == |arrivals| && forall i :: 0 <= i < |arrivals| ==> Proper(arrivals[i], writes[i])
    ensures handled <= |arrivals|
    ensures forall i :: 0 <= i < handled ==> arrivals[i].Message? && (arrivals[i].binary ==> writes[i].ok)
    ensures tcp == Payload(arrivals[..handled]) + partial
    ensures counter == |Payload(arrivals[..handled])|
    ensures outcome == Running <==> handled == |arrivals|
    ensures outcome == EndedCleanly <==> handled < |arrivals| && arrivals[handled].ClosedCleanly?
    ensures outcome == ReadFailed <==> handled < |arrivals| && arrivals[handled].Failed?
    ensures outcome == WriteFailed <==>
      handled < |arrivals| && arrivals[handled].Message? && arrivals[handled].binary && !writes[handled].ok
    ensures outcome != WriteFailed ==> partial == []
    ensures outcome == WriteFailed ==>
      Proper(arrivals[handled], writes[handled]) && partial == arrivals[handled].data[..writes[handled].n]
  {
    tcp, counter, handled, partial := [], 0, 0, [];
    while handled < |arrivals|
      invariant handled <= |arrivals|
      invariant forall i :: 0 <= i < handled ==> arrivals[i].Message? && (arrivals[i].binary ==> writes[i].ok)
      invariant tcp == Payload(arrivals[..handled]) && counter == |tcp| && partial == []
    {
      assert arrivals[..handled + 1][..handled] == arrivals[..handled];
      match arrivals[handled]
      case ClosedCleanly => return tcp, counter, EndedCleanly, handled, [];
      case Failed => return tcp, counter, ReadFailed, handled, [];
      case Message(binary, data) =>
        if binary {
          var n := writes[handled].n;
          assert Proper(arrivals[handled], writes[handled]);
          tcp := tcp + data[..n];
          if !writes[handled].ok {
            return tcp, counter, WriteFailed, handled, data[..n];
          }
          counter := counter + n;
        }
        handled := handled + 1;
    }
    assert arrivals[..handled] == arrivals;
    outcome := Running;
  }

  // ---- TCP to WebSocket

  /** `writeOk[i]` says whether the write of the frame made of the i-th read succeeds.  Every read overwrites the one
      buffer the pump has. */
  method CopyTCPToWS(arrivals: seq<TcpRead>, writeOk: seq<bool>)
    returns (frames: seq<seq<Byte>>, counter: nat, outcome: Outcome, handled: nat)
    requires |writeOk| == |arrivals|
    requires forall i :: 0 <= i < |arrivals| ==> |arrivals[i].data| <= TCP_READ_BUFFER_SIZE
    ensures handled <= |arrivals| && |frames| == handled
    ensures forall i :: 0 <= i < handled ==> frames[i] == arrivals[i].data && arrivals[i].error == NoError && writeOk[i]
    ensures Concat(frames) == Delivered(arrivals[..handled])
    ensures counter == |Concat(frames)|
    ensures outcome == Running <==> handled == |arrivals|
    ensures outcome == EndedCleanly <==> handled < |arrivals| && arrivals[handled].error == EndOfFile
    ensures outcome == ReadFailed <==> handled < |arrivals| && arrivals[handled].error == OtherError
    ensures outcome == WriteFailed <==> handled < |arrivals| && arrivals[handled].error == NoError && !writeOk[handled]
    ensures outcome == EndedCleanly || outcome == ReadFailed ==> Pumped(arrivals, frames, handled)
  {
    var buf := new Byte[TCP_READ_BUFFER_SIZE](_ => 0);
    frames, counter, handled := [], 0, 0;
    while handled < |arrivals|
      invariant handled <= |arrivals| && |frames| == handled
      invariant forall i :: 0 <= i < handled ==>
        frames[i] == arrivals[i].data && arrivals[i].error == NoError && writeOk[i]
      invariant Concat(frames) == Delivered(arrivals[..handled])
      invariant counter == |Concat(frames)|
    {
      var n := Read(buf, arrivals[handled]);
      if arrivals[handled].error != NoError {
        outcome := if arrivals[handled].error == EndOfFile then EndedCleanly else ReadFailed;
        return;
      }
      if !writeOk[handled] {
        outcome := WriteFailed;
        return;
      }
      assert arrivals[..handled + 1][..handled] == arrivals[..handled];
      ConcatAppend(frames, buf[..n]);
      frames := frames + [buf[..n]];
      counter := counter + n;
      handled := handled + 1;
    }
    outcome := Running;
  }

  /** A read fills the front of the buffer and leaves the rest as the last one left it. */
  method Read(buf: array<Byte>, read: TcpRead) returns (n: nat)
    requires |read.data| <= buf.Length
    modifies buf
    ensures n == |read.data| && buf[..n] == read.data && buf[n..] == old(buf[|read.data|..])
  {
    n := 0;
    while n < |read.data|
      invariant n <= |read.data|
      invariant buf[..n] == read.data[..n]
      invariant buf[|read.data|..] == old(buf[|read.data|..])
    {
      buf[n] := read.data[n];
      n := n + 1;
    }
  }

  // ---- fidelity

  /** What the outbound pump sent when it stopped at read `handled`: its contract above, as a relation. */
  ghost predicate Pumped(arrivals: seq<TcpRead>, frames: seq<seq<Byte>>, handled: nat) {
    && handled < |arrivals| && |frames| == handled && arrivals[handled].error != NoError
    && (forall i :: 0 <= i < handled ==> frames[i] == arrivals[i].data && arrivals[i].error == NoError)
  }

  lemma {:induction false} FramesAreReads(arrivals: seq<TcpRead>, frames: seq<seq<Byte>>)
    requires |frames| == |arrivals| && forall i :: 0 <= i < |arrivals| ==> frames[i] == arrivals[i].data
    ensures Concat(frames) == Delivered(arrivals)
  {
    if arrivals != [] {
      FramesAreReads(arrivals[..|arrivals| - 1], frames[..|frames| - 1]);
    }
  }

  /** The client receives every byte the target sent exactly when the read that ends the pump brings no data with its
      error; bytes that come together with one are dropped. */
  lemma NothingLostIff(arrivals: seq<TcpRead>, frames: seq<seq<Byte>>, handled: nat)
    requires Pumped(arrivals, frames, handled)
    ensures Concat(frames) == Delivered(arrivals[..handled + 1]) <==> arrivals[handled].data == []
  {
    FramesAreReads(arrivals[..handled], frames);
    assert arrivals[..handled + 1][..handled] == arrivals[..handled];
  }

  /** Two deliveries of the same stream, cut differently, give the client the same bytes. */
  lemma ChunkingIsInvisible(
    arrivals1: seq<TcpRead>, frames1: seq<seq<Byte>>, handled1: nat,
    arrivals2: seq<TcpRead>, frames2: seq<seq<Byte>>, handled2: nat)
    requires Pumped(arrivals1, frames1, handled1) && Pumped(arrivals2, frames2, handled2)
    requires Delivered(arrivals1[..handled1]) == Delivered(arrivals2[..handled2])
    ensures Concat(frames1) == Concat(frames2)
  {
    FramesAreReads(arrivals1[..handled1], frames1);
    FramesAreReads(arrivals2[..handled2], frames2);
  }

  /** The frames of one pump, read as messages by the other, with any text messages between them. */
  ghost predicate Carries(messages: seq<WsRead>, frames: seq<seq<Byte>>)
    decreases |messages|
  {
    if messages == [] then frames == []
    else
      var last, rest := messages[|messages| - 1], messages[..|messages| - 1];
      last.Message? &&
      if last.binary then frames != [] && last.data == frames[|frames| - 1] && Carries(rest, frames[..|frames| - 1])
      else Carries(rest, frames)
  }

  /** The tunnel is transparent: what one pump frames, the other writes out byte for byte, text messages or not. */
  lemma {:induction false} TunnelIsTransparent(arrivals: seq<TcpRead>, frames: seq<seq<Byte>>, messages: seq<WsRead>)
    requires |frames| == |arrivals| && forall i :: 0 <= i < |arrivals| ==> frames[i] == arrivals[i].data
    requires Carries(messages, frames)
    ensures Payload(messages) == Delivered(arrivals)
    decreases |messages|
  {
    if messages != [] {
      var last, rest := messages[|messages| - 1], messages[..|messages| - 1];
      if last.binary {
        TunnelIsTransparent(arrivals[..|arrivals| - 1], frames[..|frames| - 1], rest);
      } else {
        TunnelIsTransparent(arrivals, frames, rest);
      }
    }
  }
}
