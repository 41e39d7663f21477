/**
 * The base 64 encoding of section 4 of RFC 4648 ("Base 64 Encoding"), with
 * its alphabet `A`-`Z`, `a`-`z`, `0`-`9`, `+`, `/` and `=` padding. The
 * decoder is the strict decoder of that section and stands for the
 * browser's `atob`, which is more lenient: it also skips ASCII white space
 * and accepts text whose padding is left off. The encoder is what a `data:`
 * URL with `;base64` carries.
 */
module Base64 {
  import opened Wrappers
  import opened Bytes

  /** The 6-bit value of an alphabet character, or -1 for any other character. */
  function CharValue(c: char): (v: int)
    ensures -1 <= v < 64
    ensures v >= 0 ==> c != '='
  {
    if 'A' <= c <= 'Z' then c as int - 'A' as int
    else if 'a' <= c <= 'z' then c as int - 'a' as int + 26
    else if '0' <= c <= '9' then c as int - '0' as int + 52
    else if c == '+' then 62
    else if c == '/' then 63
    else -1
  }

  /** The alphabet character for a 6-bit value; it is the inverse of `CharValue`. */
  function Digit(v: int): (c: char)
    requires 0 <= v < 64
    ensures CharValue(c) == v
  {
    if v < 26 then ('A' as int + v) as char
    else if v < 52 then ('a' as int + v - 26) as char
    else if v < 62 then ('0' as int + v - 52) as char
    else if v == 62 then '+'
    else '/'
  }

  /** Three octets as four characters: each character carries the next six bits, high bits first. */
  function EncodeThree(b0: byte, b1: byte, b2: byte): (s: string)
    ensures |s| == 4
  {
    [Digit(b0 / 4), Digit(b0 % 4 * 16 + b1 / 16), Digit(b1 % 16 * 4 + b2 / 64), Digit(b2 % 64)]
  }

  /** A final two octets: three characters (the last padded with zero bits) and one pad. */
  function EncodeTwo(b0: byte, b1: byte): (s: string)
    ensures |s| == 4
  {
    [Digit(b0 / 4), Digit(b0 % 4 * 16 + b1 / 16), Digit(b1 % 16 * 4), '=']
  }

  /** A final single octet: two characters and two pads. */
  function EncodeOne(b0: byte): (s: string)
    ensures |s| == 4
  {
    [Digit(b0 / 4), Digit(b0 % 4 * 16), '=', '=']
  }

  /** The padded base 64 text of an octet sequence. */
  function Encode(b: seq<byte>): (s: string)
    ensures |s| % 4 == 0
    ensures |s| == 0 <==> |b| == 0
    decreases |b|
  {
    if |b| == 0 then ""
    else if |b| == 1 then EncodeOne(b[0])
    else if |b| == 2 then EncodeTwo(b[0], b[1])
    else
      var rest := Encode(b[3..]);
      assert |EncodeThree(b[0], b[1], b[2]) + rest| == |rest| + 4;
      EncodeThree(b[0], b[1], b[2]) + rest
  }

  /** The first octet of a quantum: six bits of the first character and two of the second. */
  function Octet0(v0: int, v1: int): (b: byte)
    requires 0 <= v0 < 64 && 0 <= v1 < 64
  {
    v0 * 4 + v1 / 16
  }

  /** The second octet of a quantum: four bits of the second character and four of the third. */
  function Octet1(v1: int, v2: int): (b: byte)
    requires 0 <= v1 < 64 && 0 <= v2 < 64
  {
    v1 % 16 * 16 + v2 / 4
  }

  /** The third octet of a quantum: two bits of the third character and six of the fourth. */
  function Octet2(v2: int, v3: int): (b: byte)
    requires 0 <= v2 < 64 && 0 <= v3 < 64
  {
    v2 % 4 * 64 + v3
  }

  /** Four alphabet characters as three octets; `None` if any is outside the alphabet. */
  function DecodeFull(c0: char, c1: char, c2: char, c3: char): (r: Option<seq<byte>>)
    ensures r.Some? ==> |r.value| == 3
    ensures r.Some? <==> CharValue(c0) >= 0 && CharValue(c1) >= 0 && CharValue(c2) >= 0 && CharValue(c3) >= 0
  {
    var v0, v1, v2, v3 := CharValue(c0), CharValue(c1), CharValue(c2), CharValue(c3);
    if v0 < 0 || v1 < 0 || v2 < 0 || v3 < 0 then None
    else Some([Octet0(v0, v1), Octet1(v1, v2), Octet2(v2, v3)])
  }

  /**
   * The last quantum, which may end in one or two pad characters; the bits
   * of the last character that fall beyond the final octet are discarded.
   */
  function DecodeLast(c0: char, c1: char, c2: char, c3: char): (r: Option<seq<byte>>)
    ensures r.Some? ==> 1 <= |r.value| <= 3
  {
    var v0, v1, v2 := CharValue(c0), CharValue(c1), CharValue(c2);
    if c2 == '=' && c3 == '=' then
      if v0 < 0 || v1 < 0 then None else Some([Octet0(v0, v1)])
    else if c3 == '=' then
      if v0 < 0 || v1 < 0 || v2 < 0 then None else Some([Octet0(v0, v1), Octet1(v1, v2)])
    else DecodeFull(c0, c1, c2, c3)
  }

  /** A sequence of quanta; only the last may carry padding. */
  function DecodeQuanta(s: string): (r: Option<seq<byte>>)
    ensures r.Some? ==> 4 * |r.value| <= 3 * |s|
    ensures r.Some? && |s| > 0 ==> |r.value| > 0
    decreases |s|
  {
    if |s| == 0 then Some([])
    else if |s| < 4 then None // not a whole quantum
    else if |s| == 4 then DecodeLast(s[0], s[1], s[2], s[3])
    else
      match DecodeFull(s[0], s[1], s[2], s[3])
      case None => None
      case Some(q) =>
        match DecodeQuanta(s[4..])
        case None => None
        case Some(rest) => Some(q + rest)
  }

  /** Decodes padded base 64 text strictly; `None` for a length that is not a multiple of four, a character outside the alphabet, or misplaced padding. */
  function Decode(s: string): (r: Option<seq<byte>>)
    ensures r.Some? ==> |s| % 4 == 0 && 4 * |r.value| <= 3 * |s|
    ensures r.Some? ==> (|r.value| == 0 <==> |s| == 0)
  {
    if |s| % 4 != 0 then None else DecodeQuanta(s)
  }

  /**
   * `atob`: the decoded octets as a "binary string", one character per
   * octet, so every character code is below 256.
   */
  function Atob(s: string): (r: Option<string>)
    ensures r.Some? <==> Decode(s).Some?
    ensures r.Some? ==> |r.value| == |Decode(s).value|
    ensures r.Some? ==> forall i :: 0 <= i < |r.value| ==> r.value[i] as int == Decode(s).value[i] < 256
  {
    match Decode(s)
    case None => None
    case Some(b) => Some(seq(|b|, i requires 0 <= i < |b| => b[i] as char))
  }

  /** The three-octet quantum survives encoding and decoding. */
  lemma ThreeRoundTrip(b0: byte, b1: byte, b2: byte)
    ensures var s := EncodeThree(b0, b1, b2); DecodeFull(s[0], s[1], s[2], s[3]) == Some([b0, b1, b2])
  {
    assert (b0 % 4 * 16 + b1 / 16) / 16 == b0 % 4;
    assert (b0 % 4 * 16 + b1 / 16) % 16 == b1 / 16;
    assert (b1 % 16 * 4 + b2 / 64) / 4 == b1 % 16;
    assert (b1 % 16 * 4 + b2 / 64) % 4 == b2 / 64;
  }

  /** The final two-octet quantum survives encoding and decoding. */
  lemma TwoRoundTrip(b0: byte, b1: byte)
    ensures var s := EncodeTwo(b0, b1); DecodeLast(s[0], s[1], s[2], s[3]) == Some([b0, b1])
  {
    var v0, v1, v2 := b0 / 4, b0 % 4 * 16 + b1 / 16, b1 % 16 * 4;
    assert Octet0(v0, v1) == b0 by {
      assert v1 / 16 == b0 % 4;
    }
    assert Octet1(v1, v2) == b1 by {
      assert v1 % 16 == b1 / 16;
      assert v2 / 4 == b1 % 16;
    }
    var s := EncodeTwo(b0, b1);
    assert s == [Digit(v0), Digit(v1), Digit(v2), '='];
    assert CharValue(s[2]) == v2;
  }

  /** The final one-octet quantum survives encoding and decoding. */
  lemma OneRoundTrip(b0: byte)
    ensures var s := EncodeOne(b0); DecodeLast(s[0], s[1], s[2], s[3]) == Some([b0])
  {
    assert (b0 % 4 * 16) / 16 == b0 % 4;
  }

  /** A full quantum in front of further quanta decodes to its octets in front of theirs. */
  lemma DecodeQuantaPrepend(head: string, tail: string, q: seq<byte>, rest: seq<byte>)
    requires |head| == 4 && |tail| % 4 == 0 && |tail| > 0
    requires DecodeFull(head[0], head[1], head[2], head[3]) == Some(q)
    requires DecodeQuanta(tail) == Some(rest)
    ensures DecodeQuanta(head + tail) == Some(q + rest)
  {
    var s := head + tail;
    assert s[..4] == head && s[4..] == tail;
    assert s[0] == head[0] && s[1] == head[1] && s[2] == head[2] && s[3] == head[3];
  }

  /** One octet is encoded as a single padded quantum that decodes back to it. */
  lemma DecodeEncodeOne(b: seq<byte>)
    requires |b| == 1
    ensures DecodeQuanta(Encode(b)) == Some(b)
  {
    OneRoundTrip(b[0]);
    assert Encode(b) == EncodeOne(b[0]);
    assert b == [b[0]];
  }

  /** Two octets are encoded as a single padded quantum that decodes back to them. */
  lemma DecodeEncodeTwo(b: seq<byte>)
    requires |b| == 2
    ensures DecodeQuanta(Encode(b)) == Some(b)
  {
    TwoRoundTrip(b[0], b[1]);
    assert Encode(b) == EncodeTwo(b[0], b[1]);
    assert b == [b[0], b[1]];
  }

  /** Three octets are encoded as a single unpadded quantum that decodes back to them. */
  lemma DecodeEncodeThree(b: seq<byte>)
    requires |b| == 3
    ensures DecodeQuanta(Encode(b)) == Some(b)
  {
    var s := EncodeThree(b[0], b[1], b[2]);
    assert Encode(b) == s by {
      assert Encode(b[3..]) == "";
    }
    assert CharValue(s[3]) >= 0;
    ThreeRoundTrip(b[0], b[1], b[2]);
    assert DecodeLast(s[0], s[1], s[2], s[3]) == DecodeFull(s[0], s[1], s[2], s[3]);
    assert b == [b[0], b[1], b[2]];
  }

  /** `Encode` turns the first three of more than three octets into one full quantum. */
  lemma EncodeFirstThree(b: seq<byte>)
    requires |b| > 3
    ensures Encode(b) == EncodeThree(b[0], b[1], b[2]) + Encode(b[3..])
  {
  }

  /** A text of more than three octets is its first three octets followed by the rest. */
  lemma SplitThree(b: seq<byte>)
    requires |b| > 3
    ensures b == [b[0], b[1], b[2]] + b[3..]
  {
  }

  /** The quanta `Encode` produces decode back to the original octets. */
  lemma {:induction false} DecodeQuantaEncode(b: seq<byte>)
    ensures DecodeQuanta(Encode(b)) == Some(b)
    decreases |b|
  {
    if |b| == 0 {
    } else if |b| == 1 {
      DecodeEncodeOne(b);
    } else if |b| == 2 {
      DecodeEncodeTwo(b);
    } else if |b| == 3 {
      DecodeEncodeThree(b);
    } else {
      EncodeFirstThree(b);
      SplitThree(b);
      ThreeRoundTrip(b[0], b[1], b[2]);
      DecodeQuantaEncode(b[3..]);
      DecodeQuantaPrepend(EncodeThree(b[0], b[1], b[2]), Encode(b[3..]), [b[0], b[1], b[2]], b[3..]);
    }
  }

  /** Decoding what `Encode` produced gives back the original octets. */
  lemma DecodeEncode(b: seq<byte>)
    ensures Decode(Encode(b)) == Some(b)
  {
    DecodeQuantaEncode(b);
  }
}
