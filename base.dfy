/** Bytes, optional values and the little-endian reads and writes of a JavaScript
    DataView, as the demos use them on notification and command frames. */
module Base {

  datatype Option<+T> = None | Some(value: T)

  /** How a JavaScript event handler ended: normally, or by an exception that
      escaped it (a RangeError from a DataView read, a TypeError on `undefined`). */
  datatype Completion = Normal | Thrown

  type byte = x: int | 0 <= x < 256

  const U16_RANGE: int := 0x1_0000
  const I16_MIN: int := -0x8000
  const I16_MAX: int := 0x7FFF

  predicate IsU16(v: int) { 0 <= v < U16_RANGE }
  predicate IsI16(v: int) { I16_MIN <= v <= I16_MAX }

  /** `DataView.getUint8(off)`: None stands for the RangeError thrown when the
      byte lies outside the view. */
  function GetUint8(b: seq<byte>, off: nat): (r: Option<byte>)
    ensures r.Some? <==> off < |b|
    ensures r.Some? ==> r.value == b[off]
  {
    if off < |b| then Some(b[off]) else None
  }

  /** `DataView.getUint16(off, true)`: little-endian, needs two bytes. */
  function GetUint16(b: seq<byte>, off: nat): (r: Option<int>)
    ensures r.Some? <==> off + 2 <= |b|
    ensures r.Some? ==> IsU16(r.value)
  {
    if off + 2 <= |b| then Some(b[off] as int + 256 * (b[off + 1] as int)) else None
  }

  /** Two's-complement reading of a 16-bit pattern. */
  function ToInt16(u: int): (r: int)
    requires IsU16(u)
    ensures IsI16(r)
    ensures r % U16_RANGE == u
  {
    if u >= 0x8000 then u - U16_RANGE else u
  }

  /** `DataView.getInt16(off, true)`: little-endian and signed, needs two bytes. */
  function GetInt16(b: seq<byte>, off: nat): (r: Option<int>)
    ensures r.Some? <==> off + 2 <= |b|
    ensures r.Some? ==> IsI16(r.value) && r.value % U16_RANGE == GetUint16(b, off).value
  {
    match GetUint16(b, off)
    case None => None
    case Some(u) => Some(ToInt16(u))
  }

  /** The two bytes `DataView.setUint16(off, v, true)` writes: the value is first
      reduced modulo 2^16 (ECMAScript ToUint16, which agrees with Dafny's
      Euclidean `%` on integers), low byte first. */
  function Le16(v: int): (r: seq<byte>)
    ensures |r| == 2
  {
    var u := v % U16_RANGE;
    [u % 256, u / 256]
  }

  /** Writing a 16-bit value and reading it back yields the value reduced modulo 2^16. */
  lemma Le16RoundTrip(v: int, prefix: seq<byte>, suffix: seq<byte>)
    ensures GetUint16(prefix + Le16(v) + suffix, |prefix|) == Some(v % U16_RANGE)
  {
    var b := prefix + Le16(v) + suffix;
    var u := v % U16_RANGE;
    assert b[|prefix|] == u % 256 && b[|prefix| + 1] == u / 256;
  }

  /** A signed 16-bit value survives a write and a signed read unchanged. */
  lemma Le16SignedRoundTrip(v: int, prefix: seq<byte>, suffix: seq<byte>)
    requires IsI16(v)
    ensures GetInt16(prefix + Le16(v) + suffix, |prefix|) == Some(v)
  {
    Le16RoundTrip(v, prefix, suffix);
  }

  /** Reading two bytes and writing them back reproduces them. */
  lemma GetUint16Le16(b: seq<byte>, off: nat)
    requires off + 2 <= |b|
    ensures Le16(GetUint16(b, off).value) == b[off..off + 2]
  {
  }
}
