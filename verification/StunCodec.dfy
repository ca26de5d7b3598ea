/**
  stun2/svr.go and stun2/cli.go: a binding response as the server builds it and the client's walk
  over its attributes, with the XOR that the client does in place. RFC 5389, sections 6, 15, 15.1,
  15.2 and 15.5; CHANGED-ADDRESS is section 11.2.3 of RFC 3489.
*/
module StunCodec {
  import opened Base
  import opened Decimal

  const MAPPED: nat := 0x0001
  const CHANGED: nat := 0x0005
  const XOR_MAPPED: nat := 0x0020
  const FINGERPRINT: nat := 0x8028

  const MAGIC: Bytes := [0x21, 0x12, 0xA4, 0x42]
  const MAGIC_HIGH: nat := 0x2112
  const FINGERPRINT_XOR: nat := 0x5354554e

  // ---- Bytes ----

  /** Bitwise exclusive or. */
  function Xor(a: nat, b: nat): nat {
    if a == 0 && b == 0 then 0
    else 2 * Xor(a / 2, b / 2) + if a % 2 == b % 2 then 0 else 1
  }

  /** All bits but the last, and the last. */
  lemma XorBits(a: nat, b: nat)
    ensures Xor(a, b) / 2 == Xor(a / 2, b / 2) && Xor(a, b) % 2 == if a % 2 == b % 2 then 0 else 1
  {
  }

  lemma {:induction false} XorTwice(a: nat, b: nat)
    ensures Xor(Xor(a, b), b) == a
  {
    if a != 0 || b != 0 {
      XorBits(a, b);
      XorBits(Xor(a, b), b);
      XorTwice(a / 2, b / 2);
      hide Xor;
    }
  }

  function Pow2(k: nat): nat {
    if k == 0 then 1 else 2 * Pow2(k - 1)
  }

  lemma {:induction false} XorBound(a: nat, b: nat, k: nat)
    requires a < Pow2(k) && b < Pow2(k)
    ensures Xor(a, b) < Pow2(k)
  {
    if k > 0 {
      XorBound(a / 2, b / 2, k - 1);
    }
  }

  function XorByte(a: byte, b: byte): byte {
    XorBound(a, b, 8);
    assert Pow2(8) == 256;
    Xor(a, b)
  }

  lemma XorByteTwice(a: byte, b: byte)
    ensures XorByte(XorByte(a, b), b) == a
  {
    XorTwice(a, b);
  }

  lemma XorPort(p: nat)
    requires p < 65536
    ensures Xor(p, MAGIC_HIGH) < 65536 && Xor(Xor(p, MAGIC_HIGH), MAGIC_HIGH) == p
  {
    assert Pow2(8) == 256 && Pow2(12) == 4096 && Pow2(16) == 65536;
    XorBound(p, MAGIC_HIGH, 16);
    XorTwice(p, MAGIC_HIGH);
  }

  function Put32(n: nat): (s: Bytes)
    ensures |s| == 4
  {
    [n / 0x1000000 % 256, n / 0x10000 % 256, n / 0x100 % 256, n % 256]
  }

  // ---- Building ----

  /** An IP address has 4 bytes or 16. */
  type IP = ip: Bytes | |ip| == 4 || |ip| == 16 witness [0, 0, 0, 0]

  datatype Endpoint = Endpoint(ip: IP, port: int)

  const V4_IN_V6: Bytes := [0, 0, 0, 0, 0, 0, 0, 0, 0, 0, 0xff, 0xff]

  /** net.IP.To4, and the address itself where that is nil: one address has one such form. */
  function Canonical(ip: IP): IP {
    if |ip| == 16 && ip[..12] == V4_IN_V6 then ip[12..] else ip
  }

  /** Type, length, zero byte, family, port, address. */
  function AddressAttr(kind: nat, port: nat, ip: IP): Bytes {
    Put16(kind) + [0, 4 + |ip|] + [0, if |ip| == 4 then 1 else 2] + Put16(port) + ip
  }

  function BuildMapped(a: Endpoint): Bytes {
    AddressAttr(MAPPED, a.port % 65536, Canonical(a.ip))
  }

  function XorAddress(ip: IP, tid: Bytes): (r: IP)
    requires |tid| == 12
    ensures |r| == |ip|
  {
    seq(|ip|, i requires 0 <= i < |ip| => XorByte(ip[i], if i < 4 then MAGIC[i] else tid[i - 4]))
  }

  function BuildXorMapped(a: Endpoint, tid: Bytes): Bytes
    requires |tid| == 12
  {
    AddressAttr(XOR_MAPPED, Xor(a.port % 65536, MAGIC_HIGH), XorAddress(Canonical(a.ip), tid))
  }

  /** `host` is what net.ParseIP made of the host part, `port` the text of the port part. */
  datatype Changed = Malformed | HostPort(host: Option<IP>, port: string)

  function BuildChanged(c: Changed): Bytes {
    if c.Malformed? || c.host.None? then []
    else AddressAttr(CHANGED, Value(c.port) % 65536, Canonical(c.host.value))
  }

  function BuildFingerprint(crc: nat): Bytes {
    Put16(FINGERPRINT) + [0, 4] + Put32(crc)
  }

  /** `crc` stands for the IEEE CRC-32. */
  function BuildResponse(a: Endpoint, tid: Bytes, changed: Changed, crc: Bytes -> nat): Bytes
    requires |tid| == 12
  {
    var attrs := BuildMapped(a) + BuildXorMapped(a, tid) + BuildChanged(changed);
    var message := [1, 1] + Put16(|attrs| + 8) + MAGIC + tid + attrs;
    message + BuildFingerprint(Xor(crc(message), FINGERPRINT_XOR))
  }

  // ---- The client's lookup on a sequence of bytes ----

  datatype StunError = NotFound | Overflow | ShortAddress | UnknownFamily | ShortCookie | ShortTransaction

  datatype Lookup = Found(a: Endpoint) | Failed(e: StunError)

  /** The padding sum is 16 bits wide and wraps for the three largest lengths. */
  function Padded(n: nat): nat {
    (n + 3) % 65536 / 4 * 4
  }

  /** Where the attribute at `i` has its size, and where the next one starts. */
  function Skip(s: Bytes, i: nat): nat
    requires i + 4 <= |s|
  {
    i + 4 + Padded(U16(s, i + 2))
  }

  /** The position of the first attribute of type `kind`, from `start` on. */
  function Walk(s: Bytes, start: nat, kind: nat): (r: Option<nat>)
    ensures r.Some? ==> start <= r.value && r.value + 4 <= |s| && Skip(s, r.value) <= |s| && U16(s, r.value) == kind
    decreases |s| - start
  {
    if start + 4 > |s| || Skip(s, start) > |s| then None
    else if U16(s, start) == kind then Some(start)
    else Walk(s, Skip(s, start), kind)
  }

  /** The length of the address for a family byte. */
  function FamilySize(family: byte): Option<nat> {
    if family == 1 then Some(4) else if family == 2 then Some(16) else None
  }

  /** What is wrong with the address attribute at `i`, if anything. */
  function AddressError(s: Bytes, i: nat, kind: nat, magic: Bytes, tid: Bytes): Option<StunError>
    requires i + 4 <= |s|
  {
    var n := U16(s, i + 2);
    if i + 4 + n > |s| then Some(Overflow)
    else if n < 2 then Some(ShortAddress)
    else
      var size := FamilySize(s[i + 5]);
      if size.None? then Some(UnknownFamily)
      else if n < 4 + size.value then Some(ShortAddress)
      else if kind == XOR_MAPPED && |magic| < 4 then Some(ShortCookie)
      else if kind == XOR_MAPPED && |tid| < 12 then Some(ShortTransaction)
      else None
  }

  /** The bytes after the XOR in place. */
  function Unmasked(s: Bytes, i: nat, size: nat, magic: Bytes, tid: Bytes): (r: Bytes)
    requires i + 8 + size <= |s| && size <= 16 && |magic| >= 4 && |tid| >= 12
    ensures |r| == |s|
  {
    seq(|s|, k requires 0 <= k < |s| =>
      if i + 8 <= k < i + 12 && k < i + 8 + size then XorByte(s[k], magic[k - (i + 8)])
      else if i + 12 <= k < i + 8 + size then XorByte(s[k], tid[k - (i + 12)])
      else s[k])
  }

  /** getStunIpPort5 on the attribute at `i`: the answer and the bytes it leaves. */
  function Decode(s: Bytes, i: nat, kind: nat, magic: Bytes, tid: Bytes): (r: (Lookup, Bytes))
    requires i + 4 <= |s|
    ensures |r.1| == |s|
  {
    var e := AddressError(s, i, kind, magic, tid);
    if e.Some? then (Failed(e.value), s)
    else
      var size := FamilySize(s[i + 5]).value;
      if kind == XOR_MAPPED then
        var t := Unmasked(s, i, size, magic, tid);
        (Found(Endpoint(t[i + 8..i + 8 + size], Xor(U16(s, i + 6), MAGIC_HIGH))), t)
      else (Found(Endpoint(s[i + 8..i + 8 + size], U16(s, i + 6))), s)
  }

  /** getStunIpPort4. */
  function LookUp(s: Bytes, kind: nat, magic: Bytes, tid: Bytes): (r: (Lookup, Bytes))
    ensures |r.1| == |s|
  {
    var i := Walk(s, 0, kind);
    if i.None? then (Failed(NotFound), s) else Decode(s, i.value, kind, magic, tid)
  }

  // ---- The client's lookup in its buffer ----

  method GetStunIpPort5(a: array<byte>, limit: nat, start: nat, kind: nat, magic: Bytes, tid: Bytes) returns (r: Lookup)
    requires limit <= a.Length && start + 4 <= limit
    modifies a
    ensures (r, a[..limit]) == Decode(old(a[..limit]), start, kind, magic, tid)
    ensures a[limit..] == old(a[limit..])
  {
    ghost var s, tail := a[..limit], a[limit..];
    var n := U16(a[..limit], start + 2);
    if n + 4 > limit - start {
      return Failed(Overflow);
    }
    if n < 2 {
      return Failed(ShortAddress);
    }
    var size;
    if a[start + 5] == 1 {
      if n < 8 {
        return Failed(ShortAddress);
      }
      size := 4;
    } else if a[start + 5] == 2 {
      if n < 20 {
        return Failed(ShortAddress);
      }
      size := 16;
    } else {
      return Failed(UnknownFamily);
    }
    var port := U16(a[..limit], start + 6);
    if kind == XOR_MAPPED {
      if |magic| < 4 {
        return Failed(ShortCookie);
      }
      if |tid| < 12 {
        return Failed(ShortTransaction);
      }
      Unmask(a, start + 8, size, magic, tid);
      port := Xor(port, MAGIC_HIGH);
      assert a[..limit] == Unmasked(s, start, size, magic, tid);
      assert a[limit..] == tail by {
        assert forall k :: limit <= k < a.Length ==> a[k] == tail[k - limit];
      }
    }
    assert a[limit..] == tail;
    r := Found(Endpoint(a[start + 8..start + 8 + size], port));
    assert a[start + 8..start + 8 + size] == a[..limit][start + 8..start + 8 + size];
  }

  /** The XOR of an address of `size` bytes at `at`, in place. */
  method Unmask(a: array<byte>, at: nat, size: nat, magic: Bytes, tid: Bytes)
    requires at + size <= a.Length && (size == 4 || size == 16) && |magic| >= 4 && |tid| >= 12
    modifies a
    ensures forall k :: 0 <= k < a.Length ==>
              a[k] == if at <= k < at + 4 then XorByte(old(a[k]), magic[k - at])
                      else if at + 4 <= k < at + size then XorByte(old(a[k]), tid[k - at - 4])
                      else old(a[k])
  {
    for i := 0 to 4
      invariant forall k :: 0 <= k < a.Length ==>
                  a[k] == if at <= k < at + i then XorByte(old(a[k]), magic[k - at]) else old(a[k])
    {
      a[at + i] := XorByte(a[at + i], magic[i]);
    }
    if size == 16 {
      for i := 4 to 16
        invariant forall k :: 0 <= k < a.Length ==>
                    a[k] == if at <= k < at + 4 then XorByte(old(a[k]), magic[k - at])
                            else if at + 4 <= k < at + i then XorByte(old(a[k]), tid[k - at - 4])
                            else old(a[k])
      {
        a[at + i] := XorByte(a[at + i], tid[i - 4]);
      }
    }
  }

  method GetStunIpPort4(a: array<byte>, length: nat, kind: nat, magic: Bytes, tid: Bytes) returns (r: Lookup)
    modifies a
    ensures var limit := Min(length, a.Length);
            (r, a[..limit]) == LookUp(old(a[..limit]), kind, magic, tid) && a[limit..] == old(a[limit..])
  {
    var limit := if length > a.Length then a.Length else length;
    assert limit == Min(length, a.Length);
    ghost var s, tail := a[..limit], a[limit..];
    hide Decode, U16;
    var start := 0;
    while start + 4 <= limit
      invariant a[..limit] == s && a[limit..] == tail
      invariant Walk(s, 0, kind) == Walk(s, start, kind)
      decreases limit - start
    {
      var n := U16(a[..limit], start + 2);
      var padded := (n + 3) % 65536 / 4 * 4;
      if 4 + padded > limit - start {
        break;
      }
      if U16(a[..limit], start) == kind {
        r := GetStunIpPort5(a, limit, start, kind, magic, tid);
        return;
      }
      start := start + 4 + padded;
    }
    r := Failed(NotFound);
  }

  /** getStunIpPort2 on the attributes of a response: both addresses, or the first failure that counts. */
  datatype Answer = Addresses(mapped: Endpoint, changed: Endpoint) | NoAnswer(e: StunError)

  method Addresses2(a: array<byte>, magic: Bytes, tid: Bytes) returns (r: Answer)
    modifies a
    ensures r == Understood(old(a[..]), magic, tid)
  {
    assert a[..a.Length] == a[..];
    var m := GetStunIpPort4(a, a.Length, MAPPED, magic, tid);
    assert a[..a.Length] == a[..];
    if m.Failed? {
      m := GetStunIpPort4(a, a.Length, XOR_MAPPED, magic, tid);
      assert a[..a.Length] == a[..];
    }
    if m.Failed? {
      return NoAnswer(m.e);
    }
    var c := GetStunIpPort4(a, a.Length, CHANGED, magic, tid);
    r := if c.Failed? then NoAnswer(c.e) else Addresses(m.a, c.a);
  }

  /** The same, each lookup on what the one before left. */
  function Understood(s: Bytes, magic: Bytes, tid: Bytes): Answer {
    var m := LookUp(s, MAPPED, magic, tid);
    var x := if m.0.Failed? then LookUp(m.1, XOR_MAPPED, magic, tid) else m;
    if x.0.Failed? then NoAnswer(x.0.e)
    else
      var c := LookUp(x.1, CHANGED, magic, tid).0;
      if c.Failed? then NoAnswer(c.e) else Addresses(x.0.a, c.a)
  }

  // ---- The walk on well-formed lists ----

  datatype Attr = Attr(kind: nat, value: Bytes, padding: Bytes)

  /** A value whose padding sum does not wrap, padded to a multiple of four. */
  predicate WellFormed(x: Attr) {
    x.kind < 65536 && |x.value| <= 65532 && |x.padding| < 4 && (|x.value| + |x.padding|) % 4 == 0
  }

  function EncodeAttr(x: Attr): Bytes {
    Put16(x.kind) + Put16(|x.value|) + x.value + x.padding
  }

  function Encode(xs: seq<Attr>): Bytes {
    if xs == [] then [] else EncodeAttr(xs[0]) + Encode(xs[1..])
  }

  lemma AttrSize(x: Attr)
    requires WellFormed(x)
    ensures |EncodeAttr(x)| == 4 + Padded(|x.value|)
    ensures U16(EncodeAttr(x), 0) == x.kind && U16(EncodeAttr(x), 2) == |x.value|
  {
    PaddedSize(|x.value|, |x.padding|);
    hide Padded;
    var kind, size := Put16(x.kind), Put16(|x.value|);
    assert EncodeAttr(x)[..4] == kind + size;
  }

  lemma PaddedSize(n: nat, padding: nat)
    requires n <= 65532 && padding < 4 && (n + padding) % 4 == 0
    ensures Padded(n) == n + padding
  {
  }

  /** The index of the first attribute of the type, |xs| if there is none. */
  function First(xs: seq<Attr>, kind: nat): (n: nat)
    ensures n <= |xs| && (n < |xs| ==> xs[n].kind == kind)
    ensures forall i :: 0 <= i < n ==> xs[i].kind != kind
  {
    if xs == [] || xs[0].kind == kind then 0 else 1 + First(xs[1..], kind)
  }

  /** Where attribute `n` starts. */
  function Offset(xs: seq<Attr>, n: nat): nat
    requires n <= |xs|
  {
    if n == 0 then 0 else |EncodeAttr(xs[0])| + Offset(xs[1..], n - 1)
  }

  lemma WalkStep(pre: Bytes, x: Attr, rest: Bytes, kind: nat)
    requires WellFormed(x)
    ensures var s := pre + EncodeAttr(x) + rest;
            Walk(s, |pre|, kind) == if x.kind == kind then Some(|pre|) else Walk(s, |pre + EncodeAttr(x)|, kind)
  {
    AttrSize(x);
    var e := EncodeAttr(x);
    var s := pre + e + rest;
    assert s[|pre|..|pre| + 4] == e[..4];
    assert U16(s, |pre|) == U16(e, 0) && U16(s, |pre| + 2) == U16(e, 2) by {
      assert s[|pre|..|pre| + 4][0] == e[0] && s[|pre|..|pre| + 4][1] == e[1];
      assert s[|pre|..|pre| + 4][2] == e[2] && s[|pre|..|pre| + 4][3] == e[3];
    }
  }

  /**
    Where a well-formed list stands first, the walk finds its first attribute of the type; if there is none it
    goes on behind the list.
  */
  lemma {:induction false} WalkFindsFirst(pre: Bytes, xs: seq<Attr>, rest: Bytes, kind: nat)
    requires forall i :: 0 <= i < |xs| ==> WellFormed(xs[i])
    ensures var n, s := First(xs, kind), pre + Encode(xs) + rest;
            Walk(s, |pre|, kind) == if n < |xs| then Some(|pre| + Offset(xs, n)) else Walk(s, |pre + Encode(xs)|, kind)
    decreases |xs|
  {
    hide Walk, EncodeAttr;
    if xs != [] {
      var e := EncodeAttr(xs[0]);
      WalkStep(pre, xs[0], Encode(xs[1..]) + rest, kind);
      assert pre + Encode(xs) + rest == pre + e + (Encode(xs[1..]) + rest);
      assert pre + Encode(xs) + rest == (pre + e) + Encode(xs[1..]) + rest;
      assert pre + Encode(xs) == (pre + e) + Encode(xs[1..]);
      WalkFindsFirst(pre + e, xs[1..], rest, kind);
    }
  }

  lemma WalkNowhere(pre: Bytes, kind: nat)
    ensures pre + [] == pre && Walk(pre, |pre|, kind).None?
  {
  }

  /** An attribute that is cut short is not seen. */
  lemma CutAttr(pre: Bytes, x: Attr, m: nat, kind: nat)
    requires WellFormed(x) && m < |EncodeAttr(x)|
    ensures Walk(pre + EncodeAttr(x)[..m], |pre|, kind).None?
  {
    AttrSize(x);
    hide Padded;
    var e, s := EncodeAttr(x), pre + EncodeAttr(x)[..m];
    if m >= 4 {
      assert forall k :: 0 <= k < 4 ==> s[|pre| + k] == e[k];
    }
  }

  /** Of a list that is cut, the walk finds the first attribute of the type that is there in full, or nothing. */
  lemma WalkOnCut(xs: seq<Attr>, x: Attr, m: nat, kind: nat)
    requires (forall i :: 0 <= i < |xs| ==> WellFormed(xs[i])) && WellFormed(x) && m < |EncodeAttr(x)|
    ensures var n := First(xs, kind);
            Walk(Encode(xs) + EncodeAttr(x)[..m], 0, kind) == if n < |xs| then Some(Offset(xs, n)) else None
  {
    hide EncodeAttr, Walk;
    var rest := EncodeAttr(x)[..m];
    assert [] + Encode(xs) + rest == Encode(xs) + rest && [] + Encode(xs) == Encode(xs);
    WalkFindsFirst([], xs, rest, kind);
    CutAttr(Encode(xs), x, m, kind);
  }

  // ---- The XOR in place and later lookups ----

  /** Both have the same bytes up to `i` and from `j` on. */
  ghost predicate SameOutside(s: Bytes, t: Bytes, i: nat, j: nat) {
    |s| == |t| && (forall k :: 0 <= k < |s| && (k < i || k >= j) ==> s[k] == t[k])
  }

  lemma {:induction false} WalkBeyond(s: Bytes, t: Bytes, i: nat, j: nat, start: nat, kind: nat)
    requires SameOutside(s, t, i, j) && start >= j
    ensures Walk(t, start, kind) == Walk(s, start, kind)
    decreases |s| - start
  {
    if start + 4 <= |s| && Skip(s, start) <= |s| {
      WalkBeyond(s, t, i, j, Skip(s, start), kind);
    }
  }

  lemma SameHeader(s: Bytes, t: Bytes, i: nat, j: nat, p: nat)
    requires SameOutside(s, t, i, j) && p + 4 <= |s| && (p + 4 <= i || j <= p)
    ensures U16(t, p) == U16(s, p) && Skip(t, p) == Skip(s, p)
  {
  }

  /** Bytes inside the value of the attribute that one walk stops at do not disturb the walk for another type. */
  lemma {:induction false} WalkAround(s: Bytes, t: Bytes, start: nat, at: nat, kind: nat, other: nat)
    requires Walk(s, start, kind) == Some(at) && other != kind
    requires SameOutside(s, t, at + 4, Skip(s, at))
    ensures Walk(t, start, other) == Walk(s, start, other)
    ensures var r := Walk(s, start, other); r.Some? ==> r.value != at && (Skip(s, r.value) <= at || Skip(s, at) <= r.value)
    decreases |s| - start
  {
    SameHeader(s, t, at + 4, Skip(s, at), start);
    hide U16, SameOutside;
    if start == at {
      WalkBeyond(s, t, at + 4, Skip(s, at), Skip(s, at), other);
    } else {
      WalkAround(s, t, Skip(s, start), at, kind, other);
    }
  }

  /** Up to 64 KB a value that fits has its padding within its own attribute. */
  lemma ValueInside(s: Bytes, i: nat)
    requires i + 4 <= |s| <= 65536 && i + 4 + U16(s, i + 2) <= |s|
    ensures i + 4 + U16(s, i + 2) <= Skip(s, i)
  {
  }

  lemma DecodeStays(s: Bytes, i: nat, kind: nat, magic: Bytes, tid: Bytes)
    requires i + 4 <= |s| <= 65536
    ensures SameOutside(s, Decode(s, i, kind, magic, tid).1, i + 4, Skip(s, i))
  {
    if AddressError(s, i, kind, magic, tid).None? {
      ValueInside(s, i);
    }
  }

  lemma DecodeSame(s: Bytes, t: Bytes, i: nat, kind: nat, magic: Bytes, tid: Bytes)
    requires i + 4 <= |s| == |t| <= 65536 && Skip(s, i) <= |s|
    requires forall k :: i <= k < Skip(s, i) ==> s[k] == t[k]
    ensures Decode(t, i, kind, magic, tid).0 == Decode(s, i, kind, magic, tid).0
  {
  }

  /**
    On any bytes up to 64 KB, the lookup of XOR-MAPPED-ADDRESS leaves the answers of all other lookups
    what they were.
  */
  lemma XorHarmless(s: Bytes, other: nat, magic: Bytes, tid: Bytes)
    requires |s| <= 65536 && other != XOR_MAPPED
    ensures LookUp(LookUp(s, XOR_MAPPED, magic, tid).1, other, magic, tid).0 == LookUp(s, other, magic, tid).0
  {
    var at := Walk(s, 0, XOR_MAPPED);
    if at.Some? {
      var t := Decode(s, at.value, XOR_MAPPED, magic, tid).1;
      DecodeStays(s, at.value, XOR_MAPPED, magic, tid);
      WalkAround(s, t, 0, at.value, XOR_MAPPED, other);
      var i := Walk(s, 0, other);
      if i.Some? {
        DecodeSame(s, t, i.value, other, magic, tid);
      }
    }
  }

  // ---- What an answer needs ----

  /** An address is found exactly if its attribute is whole and long enough for its family, with a key if it is masked. */
  lemma DecodeFound(s: Bytes, i: nat, kind: nat, magic: Bytes, tid: Bytes)
    requires i + 4 <= |s|
    ensures var n := 256 * (s[i + 2] as int) + s[i + 3];
            Decode(s, i, kind, magic, tid).0.Found?
            <==> i + 4 + n <= |s| && n >= 8 && (s[i + 5] == 1 || (s[i + 5] == 2 && n >= 20))
                 && (kind == 0x0020 ==> |magic| >= 4 && |tid| >= 12)
  {
  }

  /** The key of a masked address is the message's own cookie and transaction id, that of a masked port the cookie's first half. */
  lemma MaskedByHeader(ip: IP, tid: Bytes, k: nat)
    requires |tid| == 12 && k < |ip|
    ensures XorAddress(ip, tid)[k] == Xor(ip[k], (MAGIC + tid)[k]) && MAGIC_HIGH == U16(MAGIC, 0)
  {
  }

  // ---- What the client reads from the server's response ----

  function ResponseAttrs(a: Endpoint, tid: Bytes, changed: Changed, mark: nat): seq<Attr>
    requires |tid| == 12
  {
    var ip := Canonical(a.ip);
    [AddressValue(MAPPED, a.port % 65536, ip),
     AddressValue(XOR_MAPPED, Xor(a.port % 65536, MAGIC_HIGH), XorAddress(ip, tid))]
    + (if changed.Malformed? || changed.host.None? then []
       else [AddressValue(CHANGED, Value(changed.port) % 65536, Canonical(changed.host.value))])
    + [Attr(FINGERPRINT, Put32(mark), [])]
  }

  function AddressValue(kind: nat, port: nat, ip: IP): Attr {
    Attr(kind, [0, if |ip| == 4 then 1 else 2] + Put16(port) + ip, [])
  }

  lemma AddressEncoded(kind: nat, port: nat, ip: IP)
    requires kind < 65536
    ensures WellFormed(AddressValue(kind, port, ip))
    ensures EncodeAttr(AddressValue(kind, port, ip)) == AddressAttr(kind, port, ip)
  {
  }

  lemma EncodeOne(x: Attr)
    ensures Encode([x]) == EncodeAttr(x)
  {
    assert [x][1..] == [];
  }

  /** The response is a header that gives the length of the rest, and a well-formed attribute list. */
  lemma ResponseShape(a: Endpoint, tid: Bytes, changed: Changed, crc: Bytes -> nat) returns (mark: nat)
    requires |tid| == 12
    ensures var r := BuildResponse(a, tid, changed, crc);
            var xs := ResponseAttrs(a, tid, changed, mark);
            (forall i :: 0 <= i < |xs| ==> WellFormed(xs[i]))
            && |r| >= 28 && r[20..] == Encode(xs) && U16(r, 2) == |r| - 20 && r[4..8] == MAGIC && r[8..20] == tid
            && U16(r, 0) == 0x0101 && mark == Xor(crc(r[..|r| - 8]), FINGERPRINT_XOR)
  {
    hide BuildMapped, BuildXorMapped, BuildChanged, BuildFingerprint, Encode, ResponseAttrs, WellFormed, U16;
    var attrs := BuildMapped(a) + BuildXorMapped(a, tid) + BuildChanged(changed);
    var message := [1, 1] + Put16(|attrs| + 8) + MAGIC + tid + attrs;
    mark := Xor(crc(message), FINGERPRINT_XOR);
    ShapeOfAttrs(a, tid, changed, mark);
    AttrSizes(a, tid, changed, mark);
    assert U16([1, 1], 0) == 0x0101 by {
      TypeOfResponse();
    }
    SplitMessage([1, 1], Put16(|attrs| + 8), MAGIC, tid, attrs, BuildFingerprint(mark));
  }

  lemma TypeOfResponse()
    ensures U16([1, 1], 0) == 0x0101
  {
  }

  lemma AttrSizes(a: Endpoint, tid: Bytes, changed: Changed, mark: nat)
    requires |tid| == 12
    ensures |BuildMapped(a) + BuildXorMapped(a, tid) + BuildChanged(changed)| <= 72
    ensures |BuildFingerprint(mark)| == 8
  {
  }

  lemma SplitMessage(kind: Bytes, length: Bytes, magic: Bytes, tid: Bytes, attrs: Bytes, end: Bytes)
    requires |kind| == 2 && |length| == 2 && |magic| == 4 && |tid| == 12
    ensures var r := kind + length + magic + tid + attrs + end;
            r[20..] == attrs + end && U16(r, 2) == U16(length, 0) && r[4..8] == magic && r[8..20] == tid
            && U16(r, 0) == U16(kind, 0) && r[..|r| - |end|] == kind + length + magic + tid + attrs
  {
  }

  lemma ShapeOfAttrs(a: Endpoint, tid: Bytes, changed: Changed, mark: nat)
    requires |tid| == 12
    ensures var xs := ResponseAttrs(a, tid, changed, mark);
            (forall i :: 0 <= i < |xs| ==> WellFormed(xs[i]))
            && Encode(xs) == BuildMapped(a) + BuildXorMapped(a, tid) + BuildChanged(changed) + BuildFingerprint(mark)
  {
    var ip := Canonical(a.ip);
    var m := AddressValue(MAPPED, a.port % 65536, ip);
    var x := AddressValue(XOR_MAPPED, Xor(a.port % 65536, MAGIC_HIGH), XorAddress(ip, tid));
    var f := Attr(FINGERPRINT, Put32(mark), []);
    AddressEncoded(MAPPED, a.port % 65536, ip);
    AddressEncoded(XOR_MAPPED, Xor(a.port % 65536, MAGIC_HIGH), XorAddress(ip, tid));
    FingerprintEncoded(mark);
    hide EncodeAttr, Encode, AddressAttr, WellFormed, Canonical, XorAddress, BuildFingerprint, AddressValue;
    if changed.Malformed? || changed.host.None? {
      EncodeThree(m, x, f);
      assert [m, x] + [] + [f] == [m, x, f];
    } else {
      var c := AddressValue(CHANGED, Value(changed.port) % 65536, Canonical(changed.host.value));
      AddressEncoded(CHANGED, Value(changed.port) % 65536, Canonical(changed.host.value));
      EncodeFour(m, x, c, f);
      assert [m, x] + [c] + [f] == [m, x, c, f];
    }
  }

  lemma FingerprintEncoded(mark: nat)
    ensures var f := Attr(FINGERPRINT, Put32(mark), []);
            WellFormed(f) && EncodeAttr(f) == BuildFingerprint(mark)
  {
  }

  lemma EncodeThree(a: Attr, b: Attr, c: Attr)
    ensures Encode([a, b, c]) == EncodeAttr(a) + EncodeAttr(b) + EncodeAttr(c)
  {
    hide EncodeAttr;
    assert [a, b, c][1..] == [b, c] && [b, c][1..] == [c];
    EncodeOne(c);
  }

  lemma EncodeFour(a: Attr, b: Attr, c: Attr, d: Attr)
    ensures Encode([a, b, c, d]) == EncodeAttr(a) + EncodeAttr(b) + EncodeAttr(c) + EncodeAttr(d)
  {
    hide EncodeAttr;
    assert [a, b, c, d][1..] == [b, c, d];
    EncodeThree(b, c, d);
  }

  lemma AttrParts(pre: Bytes, kind: nat, port: nat, ip: IP, rest: Bytes)
    requires port < 65536
    ensures var s, i := pre + AddressAttr(kind, port, ip) + rest, |pre|;
            i + 8 + |ip| <= |s| && U16(s, i + 2) == 4 + |ip| && s[i + 5] == (if |ip| == 4 then 1 else 2)
            && U16(s, i + 6) == port && s[i + 8..i + 8 + |ip|] == ip
  {
    var s, e := pre + AddressAttr(kind, port, ip) + rest, AddressAttr(kind, port, ip);
    assert s[|pre|..|pre| + |e|] == e;
    assert forall k :: 0 <= k < |e| ==> s[|pre| + k] == e[k];
    assert e[8..] == ip;
  }

  /** Decoding an address attribute gives back its address and port; an XOR-ed one, with the same key, too. */
  lemma DecodeAttr(pre: Bytes, kind: nat, port: nat, ip: IP, rest: Bytes, magic: Bytes, tid: Bytes)
    requires kind < 65536 && kind != XOR_MAPPED && port < 65536
    ensures var s := pre + AddressAttr(kind, port, ip) + rest;
            |pre| + 4 <= |s| && Decode(s, |pre|, kind, magic, tid).0 == Found(Endpoint(ip, port))
  {
    AttrParts(pre, kind, port, ip, rest);
    hide AddressAttr, U16;
  }

  lemma UnmaskMasked(s: Bytes, i: nat, ip: IP, tid: Bytes)
    requires |tid| == 12 && i + 8 + |ip| <= |s| && s[i + 8..i + 8 + |ip|] == XorAddress(ip, tid)
    ensures Unmasked(s, i, |ip|, MAGIC, tid)[i + 8..i + 8 + |ip|] == ip
  {
    hide XorByte;
    var t := Unmasked(s, i, |ip|, MAGIC, tid);
    forall k | 0 <= k < |ip| ensures t[i + 8 + k] == ip[k] {
      assert s[i + 8 + k] == s[i + 8..i + 8 + |ip|][k] == XorAddress(ip, tid)[k];
      XorByteTwice(ip[k], if k < 4 then MAGIC[k] else tid[k - 4]);
    }
  }

  lemma DecodeXor(pre: Bytes, port: nat, ip: IP, rest: Bytes, tid: Bytes)
    requires |tid| == 12 && port < 65536
    ensures var s := pre + AddressAttr(XOR_MAPPED, Xor(port, MAGIC_HIGH), XorAddress(ip, tid)) + rest;
            |pre| + 4 <= |s| && Decode(s, |pre|, XOR_MAPPED, MAGIC, tid).0 == Found(Endpoint(ip, port))
  {
    hide AddressAttr, U16, Unmasked, XorAddress, Xor;
    XorPort(port);
    var masked := XorAddress(ip, tid);
    AttrParts(pre, XOR_MAPPED, Xor(port, MAGIC_HIGH), masked, rest);
    UnmaskMasked(pre + AddressAttr(XOR_MAPPED, Xor(port, MAGIC_HIGH), masked) + rest, |pre|, ip, tid);
  }

  lemma WalkFindsFirstAlone(xs: seq<Attr>, kind: nat)
    requires forall i :: 0 <= i < |xs| ==> WellFormed(xs[i])
    ensures var n := First(xs, kind); Walk(Encode(xs), 0, kind) == if n < |xs| then Some(Offset(xs, n)) else None
  {
    hide Walk;
    assert [] + Encode(xs) + [] == Encode(xs) && [] + Encode(xs) == Encode(xs);
    WalkFindsFirst([], xs, [], kind);
    WalkNowhere(Encode(xs), kind);
  }

  /** The answer for an attribute of a well-formed list is the decoding of its first attribute of the type. */
  lemma LookUpList(xs: seq<Attr>, n: nat, kind: nat, magic: Bytes, tid: Bytes)
    requires (forall i :: 0 <= i < |xs| ==> WellFormed(xs[i])) && n < |xs| && First(xs, kind) == n
    ensures var pre, rest := Encode(xs[..n]), Encode(xs[n + 1..]);
            LookUp(Encode(xs), kind, magic, tid) == Decode(pre + EncodeAttr(xs[n]) + rest, |pre|, kind, magic, tid)
  {
    WalkFindsFirstAlone(xs, kind);
    EncodeSplit(xs, n);
  }

  lemma {:induction false} EncodeSplit(xs: seq<Attr>, n: nat)
    requires n < |xs|
    ensures Encode(xs) == Encode(xs[..n]) + EncodeAttr(xs[n]) + Encode(xs[n + 1..])
    ensures Offset(xs, n) == |Encode(xs[..n])|
    decreases n
  {
    hide EncodeAttr;
    if n > 0 {
      EncodeSplit(xs[1..], n - 1);
      assert xs[..n][1..] == xs[1..][..n - 1] && xs[1..][n..] == xs[n + 1..] && xs[1..][n - 1] == xs[n];
    }
  }

  /** An IPv6 address that stands for an IPv4 one: ten zero bytes, two of 255, and the four of that one. */
  predicate MapsIPv4(ip: IP) {
    |ip| == 16 && (forall i :: 0 <= i < 10 ==> ip[i] == 0) && ip[10] == 255 && ip[11] == 255
  }

  /** The answer is this address and port; of an address that stands for an IPv4 one, that one. */
  predicate Tells(r: Lookup, ip: IP, port: int) {
    r.Found? && r.a.port == port % 65536
    && if MapsIPv4(ip) then r.a.ip == ip[12..16] else r.a.ip == ip
  }

  lemma CanonicalTells(ip: IP, port: int)
    ensures Tells(Found(Endpoint(Canonical(ip), port % 65536)), ip, port)
    ensures |Canonical(ip)| == 4 <==> |ip| == 4 || MapsIPv4(ip)
  {
    if |ip| == 16 {
      assert ip[..12] == V4_IN_V6 <==> MapsIPv4(ip) by {
        assert forall i :: 0 <= i < 12 ==> ip[..12][i] == ip[i];
        if MapsIPv4(ip) {
          assert ip[..12] == V4_IN_V6;
        }
      }
    }
  }

  lemma Absent(xs: seq<Attr>, kind: nat, magic: Bytes, tid: Bytes)
    requires (forall i :: 0 <= i < |xs| ==> WellFormed(xs[i])) && First(xs, kind) == |xs|
    ensures LookUp(Encode(xs), kind, magic, tid) == (Failed(NotFound), Encode(xs))
  {
    WalkFindsFirstAlone(xs, kind);
  }

  lemma KindsOf(a: Endpoint, tid: Bytes, changed: Changed, mark: nat)
    requires |tid| == 12
    ensures var xs := ResponseAttrs(a, tid, changed, mark);
            |xs| >= 2 && First(xs, MAPPED) == 0 && First(xs, XOR_MAPPED) == 1
            && First(xs, CHANGED) == (if changed.Malformed? || changed.host.None? then |xs| else 2)
            && xs[0] == AddressValue(MAPPED, a.port % 65536, Canonical(a.ip))
            && xs[1] == AddressValue(XOR_MAPPED, Xor(a.port % 65536, MAGIC_HIGH), XorAddress(Canonical(a.ip), tid))
            && (First(xs, CHANGED) < |xs| ==>
                  changed.HostPort? && changed.host.Some?
                  && xs[2] == AddressValue(CHANGED, Value(changed.port) % 65536, Canonical(changed.host.value)))
  {
    hide First, AddressAttr;
    var xs := ResponseAttrs(a, tid, changed, mark);
    assert xs[0].kind == MAPPED && xs[1].kind == XOR_MAPPED && xs[|xs| - 1].kind == FINGERPRINT;
    assert |xs| == if changed.Malformed? || changed.host.None? then 3 else 4;
    assert |xs| == 4 ==> xs[2].kind == CHANGED;
  }

  lemma FirstIsMapped(xs: seq<Attr>, port: nat, ip: IP, magic: Bytes, tid: Bytes)
    requires forall i :: 0 <= i < |xs| ==> WellFormed(xs[i])
    requires First(xs, MAPPED) == 0 < |xs| && xs[0] == AddressValue(MAPPED, port, ip) && port < 65536
    ensures LookUp(Encode(xs), MAPPED, magic, tid) == (Found(Endpoint(ip, port)), Encode(xs))
  {
    hide AddressAttr, Encode, EncodeAttr, AddressValue, WellFormed;
    LookUpList(xs, 0, MAPPED, magic, tid);
    AddressEncoded(MAPPED, port, ip);
    EncodeSplit(xs, 0);
    DecodeAttr(Encode(xs[..0]), MAPPED, port, ip, Encode(xs[1..]), magic, tid);
  }

  lemma SecondIsXorMapped(xs: seq<Attr>, port: nat, ip: IP, tid: Bytes)
    requires |tid| == 12 && port < 65536 && |xs| >= 2
    requires forall i :: 0 <= i < |xs| ==> WellFormed(xs[i])
    requires First(xs, XOR_MAPPED) == 1 && xs[1] == AddressValue(XOR_MAPPED, Xor(port, MAGIC_HIGH), XorAddress(ip, tid))
    ensures LookUp(Encode(xs), XOR_MAPPED, MAGIC, tid).0 == Found(Endpoint(ip, port))
  {
    hide AddressAttr, Encode, EncodeAttr, AddressValue, WellFormed, Xor, XorAddress, Decode;
    LookUpList(xs, 1, XOR_MAPPED, MAGIC, tid);
    AddressEncoded(XOR_MAPPED, Xor(port, MAGIC_HIGH), XorAddress(ip, tid));
    DecodeXor(Encode(xs[..1]), port, ip, Encode(xs[2..]), tid);
  }

  /** Through MAPPED-ADDRESS and through XOR-MAPPED-ADDRESS the client gets the same, true address. */
  lemma ResponseGivesAddress(a: Endpoint, tid: Bytes, changed: Changed, crc: Bytes -> nat)
    requires |tid| == 12
    ensures var s := BuildResponse(a, tid, changed, crc)[20..];
            Tells(LookUp(s, MAPPED, MAGIC, tid).0, a.ip, a.port) && LookUp(s, MAPPED, MAGIC, tid).1 == s
            && Tells(LookUp(s, XOR_MAPPED, MAGIC, tid).0, a.ip, a.port)
  {
    var mark := ResponseShape(a, tid, changed, crc);
    KindsOf(a, tid, changed, mark);
    hide *;
    var xs := ResponseAttrs(a, tid, changed, mark);
    FirstIsMapped(xs, a.port % 65536, Canonical(a.ip), MAGIC, tid);
    SecondIsXorMapped(xs, a.port % 65536, Canonical(a.ip), tid);
    CanonicalTells(a.ip, a.port);
  }

  /** The changed address comes through if it could be parsed, and is not found otherwise. */
  lemma ResponseGivesChanged(a: Endpoint, tid: Bytes, changed: Changed, crc: Bytes -> nat, magic: Bytes)
    requires |tid| == 12
    ensures var s := BuildResponse(a, tid, changed, crc)[20..];
            if changed.Malformed? || changed.host.None? then LookUp(s, CHANGED, magic, tid).0 == Failed(NotFound)
            else Tells(LookUp(s, CHANGED, magic, tid).0, changed.host.value, Value(changed.port))
  {
    var mark := ResponseShape(a, tid, changed, crc);
    KindsOf(a, tid, changed, mark);
    var xs := ResponseAttrs(a, tid, changed, mark);
    hide ResponseAttrs, BuildResponse, AddressAttr, Encode, EncodeAttr, AddressValue, WellFormed, Canonical, Decode, Tells;
    if changed.Malformed? || changed.host.None? {
      Absent(xs, CHANGED, magic, tid);
    } else {
      var ip, port := Canonical(changed.host.value), Value(changed.port) % 65536;
      LookUpList(xs, 2, CHANGED, magic, tid);
      AddressEncoded(CHANGED, port, ip);
      DecodeAttr(Encode(xs[..2]), CHANGED, port, ip, Encode(xs[3..]), magic, tid);
      CanonicalTells(changed.host.value, Value(changed.port));
    }
  }

  /**
    The client understands the server: it learns its own address, and the server's other one when that
    is given as StartSvr does, a parsable host with the digits of a port.
  */
  lemma ClientUnderstandsServer(a: Endpoint, tid: Bytes, host: IP, port: nat, crc: Bytes -> nat)
    requires |tid| == 12 && port < 65536
    ensures var r := BuildResponse(a, tid, HostPort(Some(host), Text(port)), crc);
            var answer := Understood(r[20..], MAGIC, tid);
            answer.Addresses? && Tells(Found(answer.mapped), a.ip, a.port) && Tells(Found(answer.changed), host, port)
  {
    var changed := HostPort(Some(host), Text(port));
    hide LookUp, BuildResponse, Text, Canonical;
    ReadsBack(port);
    ResponseGivesAddress(a, tid, changed, crc);
    ResponseGivesChanged(a, tid, changed, crc, MAGIC);
  }
}
