/**
  proxy/proxy_io.go, with the 7-byte head of proxy/proxy_l.go and proxy/proxy_r.go: datagrams over a
  byte stream. A stream may hand over its bytes in any pieces and may end anywhere.
*/
module Framing {
  import opened Base

  const MAX_PAYLOAD: nat := 65535
  const BUFFER: nat := 65536
  const HEAD_LEN: nat := 7

  datatype ReadErr = EOF | UnexpectedEOF | BadLength(n: nat)

  // ---- Frames as sequences ----

  function Frame(payload: Bytes): Bytes {
    Put16(|payload|) + payload
  }

  function Frames(ds: seq<Bytes>): Bytes {
    if ds == [] then [] else Frame(ds[0]) + Frames(ds[1..])
  }

  datatype Parsed = Got(payload: Bytes, rest: Bytes) | Ended(err: ReadErr, rest: Bytes)

  /** One frame off the front of a stream, into a buffer of `cap` bytes. */
  function Parse(s: Bytes, cap: nat): (p: Parsed)
    ensures p.Got? ==> |p.rest| + 2 <= |s| && |p.payload| <= cap
  {
    if s == [] then Ended(EOF, [])
    else if |s| < 2 then Ended(UnexpectedEOF, [])
    else
      var n := U16(s, 0);
      if n > cap then Ended(BadLength(n), s[2..])
      else if |s| - 2 >= n then Got(s[2..2 + n], s[2 + n..])
      else Ended(if |s| == 2 then EOF else UnexpectedEOF, [])
  }

  /** All complete frames of a stream, and how it ends. */
  function ParseAll(s: Bytes): (seq<Bytes>, ReadErr)
    decreases |s|
  {
    var p := Parse(s, BUFFER);
    if p.Ended? then ([], p.err)
    else
      var r := ParseAll(p.rest);
      ([p.payload] + r.0, r.1)
  }

  predicate Fits(ds: seq<Bytes>) {
    forall i :: 0 <= i < |ds| ==> |ds[i]| <= MAX_PAYLOAD
  }

  /** On the wire a frame is the length, high byte first, and the datagram. */
  lemma FrameLayout(d: Bytes)
    requires |d| <= MAX_PAYLOAD
    ensures |Frame(d)| == |d| + 2 && Frame(d)[0] == |d| / 256 && Frame(d)[1] == |d| % 256 && Frame(d)[2..] == d
  {
  }

  lemma ParseFrame(d: Bytes, rest: Bytes)
    requires |d| <= MAX_PAYLOAD
    ensures Parse(Frame(d) + rest, BUFFER) == Got(d, rest)
  {
    var s := Frame(d) + rest;
    assert s[2..2 + |d|] == d && s[2 + |d|..] == rest;
  }

  lemma ParseAllFrame(d: Bytes, rest: Bytes)
    requires |d| <= MAX_PAYLOAD
    ensures ParseAll(Frame(d) + rest) == ([d] + ParseAll(rest).0, ParseAll(rest).1)
  {
    ParseFrame(d, rest);
  }

  /** What was framed comes out again, whatever follows in the stream. */
  lemma {:induction false} RoundTrip(ds: seq<Bytes>, rest: Bytes)
    requires Fits(ds)
    ensures ParseAll(Frames(ds) + rest) == (ds + ParseAll(rest).0, ParseAll(rest).1)
  {
    hide ParseAll, Frame;
    if ds == [] {
      assert Frames(ds) + rest == rest && ds + ParseAll(rest).0 == ParseAll(rest).0;
    } else {
      var more := Frames(ds[1..]) + rest;
      assert Frames(ds) + rest == Frame(ds[0]) + more;
      ParseAllFrame(ds[0], more);
      RoundTrip(ds[1..], rest);
      assert [ds[0]] + (ds[1..] + ParseAll(rest).0) == ds + ParseAll(rest).0;
    }
  }

  lemma CleanEnd(ds: seq<Bytes>)
    requires Fits(ds)
    ensures ParseAll(Frames(ds)) == (ds, EOF)
  {
    RoundTrip(ds, []);
    assert Frames(ds) + [] == Frames(ds) && ds + [] == ds;
  }

  /** How many frames are complete within the first `n` bytes. */
  function Complete(ds: seq<Bytes>, n: nat): (k: nat)
    ensures k <= |ds|
  {
    if ds == [] || n < |Frame(ds[0])| then 0 else 1 + Complete(ds[1..], n - |Frame(ds[0])|)
  }

  lemma FramesHead(ds: seq<Bytes>, k: nat)
    requires k < |ds|
    ensures Frames(ds[..k + 1]) == Frame(ds[0]) + Frames(ds[1..][..k]) && [ds[0]] + ds[1..][..k] == ds[..k + 1]
  {
    assert ds[..k + 1][1..] == ds[1..][..k];
  }

  lemma CutInFirst(d: Bytes, n: nat)
    requires |d| <= MAX_PAYLOAD && n < |Frame(d)|
    ensures ParseAll(Frame(d)[..n]).0 == [] && ParseAll(Frame(d)[..n]).1 in {EOF, UnexpectedEOF}
  {
  }

  lemma NoFrames(s: Bytes)
    requires s == []
    ensures ParseAll(s) == ([], EOF)
  {
  }

  lemma CutPast(a: Bytes, b: Bytes, n: nat)
    requires |a| <= n <= |a + b|
    ensures (a + b)[..n] == a + b[..n - |a|]
  {
  }

  /** A stream cut after `n` bytes gives exactly the complete frames, and then an error. */
  lemma {:induction false} Truncated(ds: seq<Bytes>, n: nat)
    requires Fits(ds) && n <= |Frames(ds)|
    ensures var k := Complete(ds, n);
            ParseAll(Frames(ds)[..n]).0 == ds[..k] && ParseAll(Frames(ds)[..n]).1 in {EOF, UnexpectedEOF}
    decreases |ds|
  {
    hide ParseAll, Frame;
    if ds == [] {
      NoFrames(Frames(ds)[..n]);
    } else {
      var f := Frame(ds[0]);
      if n < |f| {
        CutInFirst(ds[0], n);
        assert Frames(ds)[..n] == f[..n];
      } else {
        var m := n - |f|;
        CutPast(f, Frames(ds[1..]), n);
        ParseAllFrame(ds[0], Frames(ds[1..])[..m]);
        Truncated(ds[1..], m);
        FramesHead(ds, Complete(ds[1..], m));
      }
    }
  }

  /** `Complete` is the largest number of frames that fit into the first `n` bytes. */
  lemma {:induction false} CompleteExact(ds: seq<Bytes>, n: nat)
    requires n <= |Frames(ds)|
    ensures var k := Complete(ds, n); |Frames(ds[..k])| <= n && (k < |ds| ==> n < |Frames(ds[..k + 1])|)
    decreases |ds|
  {
    if ds != [] {
      FramesHead(ds, 0);
      if n >= |Frame(ds[0])| {
        var m := n - |Frame(ds[0])|;
        var k := Complete(ds[1..], m);
        CompleteExact(ds[1..], m);
        FramesHead(ds, k);
        if k + 1 < |ds| {
          FramesHead(ds, k + 1);
        }
      }
    }
  }

  // ---- Streams and sockets ----

  /** The reading end: `left` is what is still to come before the stream ends. */
  class Source {
    var left: Bytes

    constructor (content: Bytes)
      ensures left == content
    {
      left := content;
    }

    /** Any number of bytes that is there and fits, at least one while there are any; an end at any time after the last. */
    method Read(buf: array<byte>, from: nat, to: nat) returns (n: nat, ended: bool)
      requires from < to <= buf.Length
      modifies this, buf
      ensures n <= to - from && n <= |old(left)| && left == old(left)[n..]
      ensures old(left) != [] ==> n > 0
      ensures ended ==> left == []
      ensures old(left) == [] ==> ended
      ensures buf[..] == Splice(old(buf[..]), from, old(left)[..n])
    {
      if left == [] {
        assert buf[..] == Splice(old(buf[..]), from, old(left)[..0]);
        return 0, true;
      }
      n :| 0 < n <= to - from && n <= |left|;
      for i := 0 to n
        invariant left == old(left)
        invariant forall k :: 0 <= k < buf.Length ==>
                    buf[k] == if from <= k < from + i then left[k - from] else old(buf[k])
      {
        buf[from + i] := left[i];
      }
      assert buf[..] == Splice(old(buf[..]), from, left[..n]);
      left := left[n..];
      var atOnce: bool := *;
      ended := left == [] && atOnce;
    }

    /** io.ReadFull into buf[from..from + n]. */
    method ReadFull(buf: array<byte>, from: nat, n: nat) returns (err: Option<ReadErr>)
      requires from + n <= buf.Length
      modifies this, buf
      ensures |old(left)| >= n ==>
                err.None? && left == old(left)[n..]
                && buf[..] == Splice(old(buf[..]), from, old(left)[..n])
      ensures |old(left)| < n ==>
                err == Some(if old(left) == [] then EOF else UnexpectedEOF) && left == []
                && buf[..] == Splice(old(buf[..]), from, old(left))
    {
      hide Splice;
      var got: nat, ended := 0, false;
      ghost var was := buf[..];
      SpliceNothing(was, from, left);
      while got < n && !ended
        invariant got <= n && got <= |old(left)| && left == old(left)[got..]
        invariant buf[..] == Splice(was, from, old(left)[..got])
        invariant ended ==> left == []
        decreases |left|, n - got, !ended
      {
        var k;
        k, ended := Read(buf, from + got, from + n);
        SpliceMore(was, from, old(left), got, k);
        got := got + k;
      }
      assert left == [] ==> old(left)[..got] == old(left);
      err := if got >= n then None else if got == 0 then Some(EOF) else Some(UnexpectedEOF);
    }
  }

  /** `was` with `data` written over it from index `from` on. */
  function Splice(was: Bytes, from: nat, data: Bytes): (r: Bytes)
    requires from + |data| <= |was|
    ensures |r| == |was|
  {
    was[..from] + data + was[from + |data|..]
  }

  lemma SpliceNothing(was: Bytes, from: nat, content: Bytes)
    requires from <= |was|
    ensures Splice(was, from, content[..0]) == was && content[0..] == content
  {
  }

  lemma SpliceMore(was: Bytes, from: nat, content: Bytes, got: nat, k: nat)
    requires got + k <= |content| && from + got + k <= |was|
    ensures Splice(Splice(was, from, content[..got]), from + got, content[got..][..k]) == Splice(was, from, content[..got + k])
    ensures content[got..][k..] == content[got + k..]
  {
    assert content[..got + k] == content[..got] + content[got..][..k];
  }

  method ReadFrame(r: Source, buf: array<byte>) returns (n: nat, err: Option<ReadErr>)
    modifies r, buf
    ensures match Parse(old(r.left), buf.Length)
            case Got(payload, rest) => err.None? && n == |payload| && n <= buf.Length && buf[..n] == payload && r.left == rest
            case Ended(e, rest) => err == Some(e) && n == 0 && r.left == rest
  {
    var hdr := new byte[2];
    err := r.ReadFull(hdr, 0, 2);
    if err.Some? {
      return 0, err;
    }
    assert hdr[..] == old(r.left)[..2];
    n := U16(hdr[..], 0);
    if n > buf.Length {
      return 0, Some(BadLength(n));
    }
    err := r.ReadFull(buf, 0, n);
    if err.Some? {
      return 0, err;
    }
    assert buf[..n] == old(r.left)[2..2 + n];
  }

  /** The writing end: a failed write may have sent a part. */
  class Sink {
    var out: Bytes
    /** Writes that failed. */
    ghost var failures: nat

    constructor ()
      ensures out == [] && failures == 0
    {
      out, failures := [], 0;
    }

    method Write(p: Bytes) returns (ok: bool)
      modifies this
      ensures ok ==> out == old(out) + p
      ensures !ok ==> exists k: nat :: k <= |p| && out == old(out) + p[..k]
      ensures failures == old(failures) + if ok then 0 else 1
    {
      ok := *;
      failures := failures + if ok then 0 else 1;
      if ok {
        out := out + p;
      } else {
        var k: nat :| k <= |p|;
        out := out + p[..k];
      }
    }
  }

  datatype WriteResult = Written | TooLarge | Failed

  method WriteFrame(w: Sink, payload: Bytes) returns (r: WriteResult)
    modifies w
    ensures r.TooLarge? <==> |payload| > MAX_PAYLOAD
    ensures r.TooLarge? ==> w.out == old(w.out)
    ensures w.failures == old(w.failures) + if r.Failed? then 1 else 0
    ensures r.Written? ==> w.out == old(w.out) + Frame(payload)
    ensures r.Failed? ==> exists k: nat :: k <= |Frame(payload)| && w.out == old(w.out) + Frame(payload)[..k]
  {
    if |payload| > MAX_PAYLOAD {
      return TooLarge;
    }
    var buf := Put16(|payload|) + payload;
    assert buf == Frame(payload);
    var ok := w.Write(buf);
    r := if ok then Written else Failed;
  }

  /** A datagram socket: what was sent on it, and what is still to be received before it ends. */
  class Socket {
    var sent: seq<Bytes>
    var coming: seq<Bytes>
    /** Sends that failed. */
    ghost var failures: nat

    constructor (coming: seq<Bytes>)
      ensures this.coming == coming && sent == [] && failures == 0
    {
      this.coming := coming;
      sent, failures := [], 0;
    }

    method Send(d: Bytes) returns (ok: bool)
      modifies this`sent, this`failures
      ensures sent == if ok then old(sent) + [d] else old(sent)
      ensures failures == old(failures) + if ok then 0 else 1
    {
      ok := *;
      failures := failures + if ok then 0 else 1;
      if ok {
        sent := sent + [d];
      }
    }

    method Receive() returns (d: Bytes, ended: bool)
      modifies this`coming
      ensures old(coming) == [] ==> d == [] && ended && coming == []
      ensures old(coming) != [] ==> d == old(coming)[0] && !ended && coming == old(coming)[1..]
    {
      if coming == [] {
        return [], true;
      }
      d, ended, coming := coming[0], false, coming[1..];
    }
  }

  // ---- The relay ----

  function NonEmpty(ds: seq<Bytes>): (r: seq<Bytes>)
    ensures |r| <= |ds| && forall d :: d in r <==> d in ds && d != []
  {
    if ds == [] then [] else (if ds[0] == [] then [] else [ds[0]]) + NonEmpty(ds[1..])
  }

  lemma {:induction false} NonEmptyJoin(a: seq<Bytes>, b: seq<Bytes>)
    ensures NonEmpty(a + b) == NonEmpty(a) + NonEmpty(b)
  {
    if a == [] {
      assert a + b == b;
    } else {
      assert (a + b)[1..] == a[1..] + b;
      NonEmptyJoin(a[1..], b);
    }
  }

  /**
    Tunnel to UDP, in RelayUDPIdle and in readBack: the datagrams sent are the non-empty frames of the
    stream, in order; all of them unless a send failed.
  */
  method RelayOut(stream: Source, conn: Socket) returns (sendFailed: bool, ghost k: nat)
    modifies stream, conn`sent, conn`failures
    ensures var ds := NonEmpty(ParseAll(old(stream.left)).0);
            k <= |ds| && conn.sent == old(conn.sent) + ds[..k] && (sendFailed <==> k < |ds|)
    ensures conn.failures == old(conn.failures) + if sendFailed then 1 else 0
  {
    hide Parse, ParseAll, NonEmpty;
    k := 0;
    var buf := new byte[BUFFER];
    ghost var all := ParseAll(stream.left).0;
    ghost var done: nat := 0;
    assert conn.sent == old(conn.sent) + NonEmpty(all[..0]) by {
      Nothing(all);
    }
    assert all[0..] == all;
    while true
      invariant done <= |all| && ParseAll(stream.left).0 == all[done..]
      invariant conn.sent == old(conn.sent) + NonEmpty(all[..done]) && conn.failures == old(conn.failures)
      decreases |stream.left|
    {
      ghost var left := stream.left;
      var n, err := ReadFrame(stream, buf);
      if err.Some? {
        NoFrame(all, done, left);
        return false, |NonEmpty(all)|;
      }
      NextFrame(all, done, left, buf[..n], stream.left);
      if n > 0 {
        var ok := conn.Send(buf[..n]);
        if !ok {
          return true, |NonEmpty(all[..done])|;
        }
      }
      done := done + 1;
    }
  }

  lemma NoFrame(all: seq<Bytes>, done: nat, left: Bytes)
    requires done <= |all| && ParseAll(left).0 == all[done..] && Parse(left, BUFFER).Ended?
    ensures all[..done] == all
  {
  }

  lemma Nothing(all: seq<Bytes>)
    ensures NonEmpty(all[..0]) == []
  {
  }

  /** The frame after the first `done` ones is handled. */
  lemma NextFrame(all: seq<Bytes>, done: nat, left: Bytes, payload: Bytes, rest: Bytes)
    requires done <= |all| && ParseAll(left).0 == all[done..] && Parse(left, BUFFER) == Got(payload, rest)
    ensures done < |all| && all[done] == payload && ParseAll(rest).0 == all[done + 1..]
    ensures NonEmpty(all[..done + 1]) == NonEmpty(all[..done]) + if payload == [] then [] else [payload]
    ensures payload != [] ==>
              |NonEmpty(all[..done])| < |NonEmpty(all)| && NonEmpty(all)[..|NonEmpty(all[..done])|] == NonEmpty(all[..done])
  {
    assert all[done..][0] == payload && all[done..][1..] == all[done + 1..];
    assert all[..done + 1] == all[..done] + [payload];
    NonEmptyJoin(all[..done], [payload]);
    assert all == all[..done] + all[done..];
    NonEmptyJoin(all[..done], all[done..]);
  }

  /**
    UDP to tunnel, in RelayUDPIdle and, for the datagrams of one client, in Serve with
    udpFwdSession.write: every non-empty datagram becomes a frame, in order. If a write fails, the
    stream ends within the frame that failed.
  */
  method RelayIn(conn: Socket, stream: Sink) returns (writeFailed: bool, ghost n: nat)
    requires Fits(conn.coming)
    modifies conn`coming, stream
    ensures var ds := NonEmpty(old(conn.coming));
            n <= |Frames(ds)| && stream.out == old(stream.out) + Frames(ds)[..n] && (!writeFailed ==> n == |Frames(ds)|)
    ensures stream.failures == old(stream.failures) + if writeFailed then 1 else 0
  {
    hide Frame, Frames, NonEmpty;
    n := 0;
    ghost var all := conn.coming;
    ghost var done: nat := 0;
    NothingYet(all);
    while true
      invariant done <= |all| && conn.coming == all[done..]
      invariant stream.out == old(stream.out) + Frames(NonEmpty(all[..done])) && stream.failures == old(stream.failures)
      decreases |conn.coming|
    {
      var d, ended := conn.Receive();
      if ended {
        assert all[..done] == all;
        n := |Frames(NonEmpty(all))|;
        return false, n;
      }
      FramesNext(all, done);
      if |d| > 0 {
        var r := WriteFrame(stream, d);
        if !r.Written? {
          ghost var k: nat :| k <= |Frame(d)| && stream.out == old(stream.out) + Frames(NonEmpty(all[..done])) + Frame(d)[..k];
          CutFrames(all, done, k);
          n := |Frames(NonEmpty(all[..done]))| + k;
          return true, n;
        }
      }
      done := done + 1;
    }
  }

  lemma NothingYet(all: seq<Bytes>)
    ensures Frames(NonEmpty(all[..0])) == []
  {
  }

  lemma {:induction false} FramesJoin(a: seq<Bytes>, b: seq<Bytes>)
    ensures Frames(a + b) == Frames(a) + Frames(b)
  {
    if a == [] {
      assert a + b == b;
    } else {
      assert (a + b)[1..] == a[1..] + b;
      FramesJoin(a[1..], b);
    }
  }

  lemma FramesNext(all: seq<Bytes>, done: nat)
    requires done < |all|
    ensures var d := all[done];
            Frames(NonEmpty(all[..done + 1])) == Frames(NonEmpty(all[..done])) + if d == [] then [] else Frame(d)
  {
    var d := all[done];
    assert all[..done + 1] == all[..done] + [d];
    NonEmptyJoin(all[..done], [d]);
    FramesJoin(NonEmpty(all[..done]), NonEmpty([d]));
    assert d != [] ==> Frames([d]) == Frame(d);
  }

  lemma CutFrames(all: seq<Bytes>, done: nat, k: nat)
    requires done < |all| && all[done] != [] && k <= |Frame(all[done])|
    ensures var before, whole := Frames(NonEmpty(all[..done])), Frames(NonEmpty(all));
            |before| + k <= |whole| && whole[..|before| + k] == before + Frame(all[done])[..k]
  {
    hide Frame, Frames, NonEmpty;
    FramesNext(all, done);
    assert all == all[..done + 1] + all[done + 1..];
    NonEmptyJoin(all[..done + 1], all[done + 1..]);
    FramesJoin(NonEmpty(all[..done + 1]), NonEmpty(all[done + 1..]));
    CutMiddle(Frames(NonEmpty(all[..done])), Frame(all[done]), Frames(NonEmpty(all[done + 1..])), k);
  }

  lemma CutMiddle(a: Bytes, b: Bytes, c: Bytes, k: nat)
    requires k <= |b|
    ensures (a + b + c)[..|a| + k] == a + b[..k]
  {
  }

  // ---- The head of a stream ----

  datatype Head = Head(protocol: byte, ip: Bytes, port: nat)

  predicate HeadOK(h: Head) {
    |h.ip| == 4 && h.port < 65536
  }

  function EncodeHead(h: Head): (s: Bytes)
    requires HeadOK(h)
    ensures |s| == HEAD_LEN
  {
    [h.protocol] + h.ip + Put16(h.port)
  }

  function DecodeHead(s: Bytes): Head
    requires |s| == HEAD_LEN
  {
    Head(s[0], s[1..5], U16(s, 5))
  }

  const PROXY_PORT: nat := 1080

  /** What process_stream does with a head. */
  datatype Action = Proxy | DialTcp(ip: Bytes, port: nat) | DialUdp(ip: Bytes, port: nat) | Reject

  function Act(h: Head, allowProxy: bool): Action {
    if h.protocol == 0 then
      if h.port == PROXY_PORT && allowProxy then Proxy
      else DialTcp(h.ip, if h.port == 13389 then 3389 else h.port)
    else if h.protocol == 1 then DialUdp(h.ip, h.port)
    else Reject
  }

  /** process_stream up to its branch; None if the head does not arrive in full. */
  method ReceiveHead(r: Source, allowProxy: bool) returns (a: Option<Action>)
    modifies r
    ensures if |old(r.left)| < HEAD_LEN then a.None?
            else a == Some(Act(DecodeHead(old(r.left)[..HEAD_LEN]), allowProxy)) && r.left == old(r.left)[HEAD_LEN..]
  {
    var buf := new byte[HEAD_LEN];
    var err := r.ReadFull(buf, 0, HEAD_LEN);
    if err.Some? {
      return None;
    }
    assert buf[..] == old(r.left)[..HEAD_LEN];
    var protocol, ip, port := buf[0], buf[1..5], U16(buf[..], 5);
    if protocol == 0 {
      if port == PROXY_PORT && allowProxy {
        return Some(Proxy);
      }
      if port == 13389 {
        port := 3389;
      }
      return Some(DialTcp(ip, port));
    }
    a := if protocol == 1 then Some(DialUdp(ip, port)) else Some(Reject);
  }

  /** The head is the protocol, the address, and the port with its high byte first; and it decodes to what was encoded. */
  lemma HeadRoundTrip(h: Head)
    requires HeadOK(h)
    ensures EncodeHead(h) == [h.protocol] + h.ip + [h.port / 256, h.port % 256]
    ensures DecodeHead(EncodeHead(h)) == h
  {
    assert EncodeHead(h)[1..5] == h.ip;
  }

  /** A TCP stream is dialled to the address asked for, except that 13389 means 3389 and 1080 may mean the proxy. */
  lemma TcpReaches(h: Head, allowProxy: bool)
    requires HeadOK(h) && h.protocol == 0
    ensures Act(DecodeHead(EncodeHead(h)), allowProxy) == DialTcp(h.ip, h.port)
            <==> h.port != 13389 && !(h.port == PROXY_PORT && allowProxy)
    ensures Act(DecodeHead(EncodeHead(h)), allowProxy).Proxy? <==> h.port == PROXY_PORT && allowProxy
    ensures h.port == 13389 ==> Act(DecodeHead(EncodeHead(h)), allowProxy) == DialTcp(h.ip, 3389)
  {
    HeadRoundTrip(h);
  }

  lemma {:induction false} NonEmptyFixed(ds: seq<Bytes>)
    requires forall i :: 0 <= i < |ds| ==> ds[i] != []
    ensures NonEmpty(ds) == ds
  {
    if ds != [] {
      NonEmptyFixed(ds[1..]);
      assert [ds[0]] + ds[1..] == ds;
    }
  }

  /** A stream of non-empty datagrams cut after `n` bytes carries a prefix of them. */
  lemma CutStream(ds: seq<Bytes>, n: nat)
    requires Fits(ds) && n <= |Frames(ds)| && forall i :: 0 <= i < |ds| ==> ds[i] != []
    ensures NonEmpty(ParseAll(Frames(ds)[..n]).0) == ds[..Complete(ds, n)]
  {
    Truncated(ds, n);
    NonEmptyFixed(ds[..Complete(ds, n)]);
  }

  lemma WholeStream(ds: seq<Bytes>)
    requires Fits(ds) && forall i :: 0 <= i < |ds| ==> ds[i] != []
    ensures NonEmpty(ParseAll(Frames(ds)).0) == ds
  {
    CleanEnd(ds);
    NonEmptyFixed(ds);
  }

  lemma NonEmptyFits(ds: seq<Bytes>)
    requires Fits(ds)
    ensures Fits(NonEmpty(ds)) && forall i :: 0 <= i < |NonEmpty(ds)| ==> NonEmpty(ds)[i] != []
  {
    forall i | 0 <= i < |NonEmpty(ds)| ensures |NonEmpty(ds)[i]| <= MAX_PAYLOAD && NonEmpty(ds)[i] != [] {
      assert NonEmpty(ds)[i] in ds;
    }
  }

  /** Local's sending half: newSession writes the head, then Serve the client's datagrams as frames. */
  method Transmit(h: Head, near: Socket, sink: Sink) returns (ok: bool, ghost n: nat)
    requires HeadOK(h) && Fits(near.coming) && sink.out == []
    modifies near`coming, sink
    ensures ok ==> sink.out == EncodeHead(h) + Frames(NonEmpty(old(near.coming)))
    ensures sink.failures == old(sink.failures) + if ok then 0 else 1
    ensures !ok ==>
              (n < HEAD_LEN && |sink.out| == n)
              || (HEAD_LEN <= n <= HEAD_LEN + |Frames(NonEmpty(old(near.coming)))|
                  && sink.out == EncodeHead(h) + Frames(NonEmpty(old(near.coming)))[..n - HEAD_LEN])
  {
    n := 0;
    ok := sink.Write(EncodeHead(h));
    if !ok {
      n := |sink.out|;
      if n == HEAD_LEN {
        assert sink.out == EncodeHead(h) + Frames(NonEmpty(near.coming))[..0];
      }
      return;
    }
    var cut;
    ghost var m;
    cut, m := RelayIn(near, sink);
    ok, n := !cut, HEAD_LEN + m;
  }

  /**
    Local to Remote in one UDP session, over any fragmentation of the stream: Remote dials the address
    asked for and sends the client's non-empty datagrams in order; all of them unless a write failed.
  */
  method Forth(h: Head, near: Socket, far: Socket) returns (a: Option<Action>, complete: bool, ghost k: nat, ghost failures: nat)
    requires HeadOK(h) && h.protocol == 1 && near != far && Fits(near.coming)
    modifies near`coming, far`sent, far`failures
    ensures complete <==> failures == 0
    ensures k <= |NonEmpty(old(near.coming))| && far.sent == old(far.sent) + NonEmpty(old(near.coming))[..k]
    ensures a.None? ==> k == 0 && !complete
    ensures a.Some? ==> a.value == DialUdp(h.ip, h.port)
    ensures complete ==> k == |NonEmpty(old(near.coming))|
  {
    hide ParseAll, Parse, Frames, NonEmpty, EncodeHead, DecodeHead, Complete;
    ghost var ds := NonEmpty(near.coming);
    NonEmptyFits(near.coming);
    HeadRoundTrip(h);
    var sink := new Sink();
    var ok;
    ghost var n;
    ok, n := Transmit(h, near, sink);
    var source := new Source(sink.out);
    a := ReceiveHead(source, true);
    if a.None? {
      return a, false, 0, 1;
    }
    assert sink.out[..HEAD_LEN] == EncodeHead(h);
    if ok {
      WholeStream(ds);
      assert source.left == Frames(ds);
    } else {
      assert source.left == Frames(ds)[..n - HEAD_LEN];
      CutStream(ds, n - HEAD_LEN);
    }
    ghost var carried := NonEmpty(ParseAll(source.left).0);
    var failed;
    failed, k := RelayOut(source, far);
    complete, failures := ok && !failed, sink.failures + if failed then 1 else 0;
  }

  /** Remote to Local: RelayUDPIdle frames the answers, and Local's readBack sends them to the client. */
  method Back(far: Socket, near: Socket) returns (complete: bool, ghost k: nat, ghost failures: nat)
    requires near != far && Fits(far.coming)
    modifies far`coming, near`sent, near`failures
    ensures complete <==> failures == 0
    ensures k <= |NonEmpty(old(far.coming))| && near.sent == old(near.sent) + NonEmpty(old(far.coming))[..k]
    ensures complete ==> k == |NonEmpty(old(far.coming))|
  {
    hide ParseAll, Parse, Frames, NonEmpty, Complete;
    ghost var ds := NonEmpty(far.coming);
    NonEmptyFits(far.coming);
    var sink := new Sink();
    var cut;
    ghost var n;
    cut, n := RelayIn(far, sink);
    assert sink.out == Frames(ds)[..n];
    var source := new Source(sink.out);
    if cut {
      CutStream(ds, n);
    } else {
      WholeStream(ds);
      assert Frames(ds)[..n] == Frames(ds);
    }
    var failed;
    failed, k := RelayOut(source, near);
    complete, failures := !cut && !failed, sink.failures + if failed then 1 else 0;
  }

  /**
    One UDP session in both directions: what the client sends reaches the address asked for, what comes
    back from there reaches the client, each in order and without the empty datagrams, and all of it
    unless a write failed on the way. Nothing comes back if the head was lost.
  */
  method Session(h: Head, near: Socket, far: Socket)
    returns (a: Option<Action>, sentAll: bool, gotAll: bool, ghost k: nat, ghost j: nat, ghost failures: nat)
    requires HeadOK(h) && h.protocol == 1 && near != far && Fits(near.coming) && Fits(far.coming)
    modifies near, far
    ensures k <= |NonEmpty(old(near.coming))| && far.sent == old(far.sent) + NonEmpty(old(near.coming))[..k]
    ensures j <= |NonEmpty(old(far.coming))| && near.sent == old(near.sent) + NonEmpty(old(far.coming))[..j]
    ensures a.None? ==> k == 0 && j == 0 && !sentAll && !gotAll
    ensures a.Some? ==> a.value == DialUdp(h.ip, h.port)
    ensures sentAll ==> k == |NonEmpty(old(near.coming))|
    ensures gotAll ==> j == |NonEmpty(old(far.coming))|
    ensures sentAll && gotAll <==> failures == 0
  {
    hide NonEmpty;
    ghost var there, back;
    a, sentAll, k, there := Forth(h, near, far);
    if a.None? {
      assert near.sent == old(near.sent) + NonEmpty(old(far.coming))[..0];
      return a, false, false, 0, 0, there;
    }
    gotAll, j, back := Back(far, near);
    failures := there + back;
  }
}
