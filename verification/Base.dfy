/** Small shared vocabulary: optional values, sequences and bytes. */
module Base {

  datatype Option<+T> = None | Some(value: T)

  /** An octet of a datagram or of a stream. */
  type byte = x: int | 0 <= x < 256

  type Bytes = seq<byte>

  function Min(a: int, b: int): int {
    if a <= b then a else b
  }

  function Remove<T>(s: seq<T>, i: nat): seq<T>
    requires i < |s|
  {
    s[..i] + s[i + 1..]
  }

  /** Two bytes, big-endian; a larger value is cut to 16 bits, as the conversion to uint16 does. */
  function Put16(n: int): (s: Bytes)
    ensures |s| == 2 && U16(s, 0) == n % 65536
  {
    [n / 256 % 256, n % 256]
  }

  function U16(s: Bytes, i: nat): (n: nat)
    requires i + 2 <= |s|
    ensures n < 65536
  {
    var high: nat, low: nat := s[i], s[i + 1];
    256 * high + low
  }
}
