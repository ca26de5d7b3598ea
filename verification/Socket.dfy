/**
  The UDP socket as the writers see it. `wire` is a history of the datagrams handed to the network.
  Outcomes are arbitrary within what the operating system promises: one datagram goes out whole or
  not at all, and a segmented send that took n bytes emits the n bytes cut into segments.
*/
module Socket {
  import opened Base
  import opened UdpBatch

  datatype WriteErr =
    | Closed | NetDown | NotSock | Shutdown | BadDescriptor
    | NoProtoOpt | OpNotSupp
    | ShortWrite
    | Other(code: nat)
  {
    /** The socket cannot be used any more (isFatalWriteErr). */
    predicate Fatal() {
      Closed? || NetDown? || NotSock? || Shutdown? || BadDescriptor?
    }

    /** The socket does not take UDP_SEND_MSG_SIZE (usoUnsupported). */
    predicate RefusesSegments() {
      NoProtoOpt? || OpNotSupp?
    }
  }

  function Addressed(payloads: seq<Bytes>, addr: AddrPort): (r: seq<Message>)
    ensures |r| == |payloads|
  {
    seq(|payloads|, i requires 0 <= i < |payloads| => Message(payloads[i], addr))
  }

  function Clamp(n: int, len: nat): nat {
    if n <= 0 then 0 else Min(n, len)
  }

  class UdpSocket {
    ghost var wire: seq<Message>
    /** Segmented sends that stopped inside a datagram. */
    ghost var torn: nat
    /** Segmented sends refused as unsupported. */
    ghost var refusals: nat
    /** Segmented sends, and sends of one datagram. */
    ghost var segmented: nat
    ghost var singles: nat
    /** The errors of the other sends that failed, in order. */
    ghost var failed: seq<WriteErr>

    constructor ()
      ensures wire == [] && torn == 0 && refusals == 0 && segmented == 0 && singles == 0 && failed == []
    {
      wire, torn, refusals, segmented, singles, failed := [], 0, 0, 0, 0, [];
    }

    method WriteTo(m: Message) returns (err: Option<WriteErr>)
      modifies this
      ensures wire == old(wire) + if err.None? then [m] else []
      ensures torn == old(torn) && refusals == old(refusals) && segmented == old(segmented)
      ensures singles == old(singles) + 1 && failed == old(failed) + if err.Some? then [err.value] else []
    {
      err := *;
      singles := singles + 1;
      wire := wire + if err.None? then [m] else [];
      failed := failed + if err.Some? then [err.value] else [];
    }

    method WriteSegmented(data: Bytes, seg: nat, addr: AddrPort) returns (n: int, err: Option<WriteErr>)
      requires seg > 0
      modifies this
      ensures wire == old(wire) + Addressed(Cut(data[..Clamp(n, |data|)], seg), addr)
      ensures torn == old(torn) + if 0 < n < |data| && n % seg != 0 then 1 else 0
      ensures refusals == old(refusals) + if err in {Some(NoProtoOpt), Some(OpNotSupp)} then 1 else 0
      ensures segmented == old(segmented) + 1 && singles == old(singles) && failed == old(failed)
    {
      segmented := segmented + 1;
      n, err := *, *;
      wire := wire + Addressed(Cut(data[..Clamp(n, |data|)], seg), addr);
      torn := torn + if 0 < n < |data| && n % seg != 0 then 1 else 0;
      refusals := refusals + if err.Some? && err.value.RefusesSegments() then 1 else 0;
    }

    /** sendmmsg: any number of leading datagrams goes out, each whole. */
    method SendMany(msgs: seq<Message>) returns (n: int, err: Option<WriteErr>)
      modifies this
      ensures n <= |msgs| && (err.None? ==> n >= 0)
      ensures wire == old(wire) + msgs[..Clamp(n, |msgs|)]
      ensures torn == old(torn) && refusals == old(refusals) && segmented == old(segmented)
      ensures singles == old(singles) && failed == old(failed) + if err.Some? then [err.value] else []
    {
      n, err := *, *;
      failed := failed + if err.Some? then [err.value] else [];
      n := if err.None? then Clamp(n, |msgs|) else Min(n, |msgs|);
      wire := wire + msgs[..Clamp(n, |msgs|)];
    }
  }
}
