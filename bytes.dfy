/**
 * Bytes as the browser's typed arrays and `DataView` see them: unsigned
 * octets, little-endian 16- and 32-bit stores, and signed 16-bit loads.
 */
module Bytes {

  /** One octet of an `ArrayBuffer`. */
  type byte = x: int | 0 <= x < 256

  /** The two octets `DataView.setUint16(pos, v, true)` (and `setInt16`) stores: v modulo 2^16, low octet first. */
  function Le16(v: int): (r: seq<byte>)
    ensures |r| == 2
    ensures r[0] as int + 256 * r[1] as int == v % 0x1_0000
  {
    var u := v % 0x1_0000;
    [u % 256, u / 256]
  }

  /** The four octets `DataView.setUint32(pos, v, true)` stores: v modulo 2^32, low octet first. */
  function Le32(v: int): (r: seq<byte>)
    ensures |r| == 4
    ensures U32At(r, 0) == v % 0x1_0000_0000
  {
    var u := v % 0x1_0000_0000;
    Le16(u % 0x1_0000) + Le16(u / 0x1_0000)
  }

  /** The unsigned 16-bit little-endian value stored at octets `i`, `i+1`. */
  function U16At(s: seq<byte>, i: nat): (v: int)
    requires i + 2 <= |s|
    ensures 0 <= v < 0x1_0000
  {
    s[i] as int + 256 * s[i + 1] as int
  }

  /** The unsigned 32-bit little-endian value stored at octets `i` .. `i+3`. */
  function U32At(s: seq<byte>, i: nat): (v: int)
    requires i + 4 <= |s|
    ensures 0 <= v < 0x1_0000_0000
  {
    U16At(s, i) + 0x1_0000 * U16At(s, i + 2)
  }

  /**
   * Element `k` of an `Int16Array` laid over `s` (little-endian platform):
   * the octets `2k`, `2k+1` read as a two's-complement 16-bit integer.
   */
  function Int16At(s: seq<byte>, k: nat): (v: int)
    requires 2 * k + 2 <= |s|
    ensures -0x8000 <= v < 0x8000
    ensures v % 0x1_0000 == U16At(s, 2 * k)
  {
    var u := U16At(s, 2 * k);
    if u >= 0x8000 then u - 0x1_0000 else u
  }

  /** The octets of an ASCII text. */
  function Ascii(t: string): (r: seq<byte>)
    requires forall i :: 0 <= i < |t| ==> t[i] as int < 128
    ensures |r| == |t|
    ensures forall i :: 0 <= i < |t| ==> r[i] == t[i] as int
  {
    seq(|t|, i requires 0 <= i < |t| => t[i] as int)
  }

  /** Reading back what `setUint16` stored gives the value modulo 2^16. */
  lemma Le16Read(v: int, s: seq<byte>, i: nat)
    requires i + 2 <= |s| && s[i..i + 2] == Le16(v)
    ensures U16At(s, i) == v % 0x1_0000
  {
    assert s[i] == Le16(v)[0] && s[i + 1] == Le16(v)[1];
  }

  /** Reading back what `setUint32` stored gives the value modulo 2^32. */
  lemma Le32Read(v: int, s: seq<byte>, i: nat)
    requires i + 4 <= |s| && s[i..i + 4] == Le32(v)
    ensures U32At(s, i) == v % 0x1_0000_0000
  {
    assert s[i] == Le32(v)[0] && s[i + 1] == Le32(v)[1];
    assert s[i + 2] == Le32(v)[2] && s[i + 3] == Le32(v)[3];
  }

  /** An `Int16Array` element read back where `setInt16(pos, v, true)` stored an in-range v is v itself. */
  lemma Int16ReadBack(v: int, s: seq<byte>, k: nat)
    requires -0x8000 <= v < 0x8000
    requires 2 * k + 2 <= |s| && s[2 * k..2 * k + 2] == Le16(v)
    ensures Int16At(s, k) == v
  {
    Le16Read(v, s, 2 * k);
  }
}
