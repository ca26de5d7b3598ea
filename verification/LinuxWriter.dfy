/**
  udpbatch/batch_linux.go: the sendmmsg writer. Runs of datagrams whose address family the socket
  takes go out in one call, the others one by one.
*/
module LinuxWriter {
  import opened Base
  import opened UdpBatch
  import opened Socket

  /** Whether this address can be given to sendmmsg on a socket of this family. */
  predicate SocketFamilyOK(ipv4Socket: bool, family: Family) {
    if ipv4Socket then family.Is4? else !family.Is4? && !family.Is4In6?
  }

  /** An error is that of the send that failed, or a short write that had none; without one, no send failed. */
  ghost predicate Blamed(err: Option<WriteErr>, before: seq<WriteErr>, after: seq<WriteErr>, short: bool) {
    match err
    case None => after == before
    case Some(e) => after == before + [e] || (after == before && e == ShortWrite && short)
  }

  class Writer {
    const conn: UdpSocket
    const ipv4: bool

    constructor (conn: UdpSocket, ipv4: bool)
      ensures this.conn == conn && this.ipv4 == ipv4
    {
      this.conn := conn;
      this.ipv4 := ipv4;
    }

    /** Repeats sendmmsg until the run is out; it is only ever given addresses of the socket's family. */
    method WriteSameFamily(msgs: seq<Message>) returns (sent: nat, err: Option<WriteErr>)
      requires forall i :: 0 <= i < |msgs| ==> SocketFamilyOK(ipv4, msgs[i].addr.family)
      modifies conn
      ensures sent <= |msgs| && (err.None? ==> sent == |msgs|)
      ensures conn.wire == old(conn.wire) + msgs[..sent] && conn.singles == old(conn.singles)
      ensures Blamed(err, old(conn.failed), conn.failed, sent < |msgs|)
    {
      sent := 0;
      while sent < |msgs|
        invariant sent <= |msgs|
        invariant conn.wire == old(conn.wire) + msgs[..sent]
        invariant conn.failed == old(conn.failed) && conn.singles == old(conn.singles)
      {
        var n, e := conn.SendMany(msgs[sent..]);
        if n > 0 {
          assert msgs[..sent + n] == msgs[..sent] + msgs[sent..][..n];
          sent := sent + n;
        }
        if e.Some? {
          return sent, e;
        }
        if n == 0 {
          return sent, Some(ShortWrite);
        }
      }
      err := None;
    }

    /** The whole batch: what is on the wire is exactly the first `sent` datagrams, in order. */
    method WriteBatch(msgs: seq<Message>) returns (sent: nat, err: Option<WriteErr>)
      modifies conn
      ensures sent <= |msgs| && (err.None? ==> sent == |msgs|)
      ensures conn.wire == old(conn.wire) + msgs[..sent]
      ensures Blamed(err, old(conn.failed), conn.failed, sent < |msgs|)
      ensures (forall m :: m in msgs ==> m.addr.family == if ipv4 then Is4 else Is6) ==> conn.singles == old(conn.singles)
    {
      sent := 0;
      while sent < |msgs|
        invariant sent <= |msgs|
        invariant conn.wire == old(conn.wire) + msgs[..sent]
        invariant conn.failed == old(conn.failed)
        invariant (forall m :: m in msgs ==> m.addr.family == if ipv4 then Is4 else Is6) ==> conn.singles == old(conn.singles)
      {
        if !SocketFamilyOK(ipv4, msgs[sent].addr.family) {
          var e := conn.WriteTo(msgs[sent]);
          if e.Some? {
            return sent, e;
          }
          assert msgs[..sent + 1] == msgs[..sent] + [msgs[sent]];
          sent := sent + 1;
          continue;
        }
        var end := sent + 1;
        while end < |msgs| && SocketFamilyOK(ipv4, msgs[end].addr.family)
          invariant sent < end <= |msgs|
          invariant forall i :: sent <= i < end ==> SocketFamilyOK(ipv4, msgs[i].addr.family)
        {
          end := end + 1;
        }
        var n, e := WriteSameFamily(msgs[sent..end]);
        assert msgs[..sent + n] == msgs[..sent] + msgs[sent..end][..n];
        sent := sent + n;
        if e.Some? {
          return sent, e;
        }
        // n == 0 without an error (io.ErrShortWrite) cannot happen here.
        if n == 0 {
          assert false;
        }
      }
      err := None;
    }
  }
}
