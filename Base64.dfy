/**
 * UTF-8 (RFC 3629, section 3) and base64 (RFC 4648, section 4) encodings, the two
 * steps of Python's `base64.b64encode(s.encode()).decode()`, each with its decoder.
 */
module Base64 {
  import opened Wrappers

  type byte = x: int | 0 <= x < 256

  /** The UTF-8 bytes of one Unicode scalar value. */
  function EncodeChar(c: char): (r: seq<byte>)
    ensures 1 <= |r| <= 4
  {
    var n := c as int;
    if n < 0x80 then [n]
    else if n < 0x800 then [0xC0 + n / 64, 0x80 + n % 64]
    else if n < 0x1_0000 then [0xE0 + n / 4096, 0x80 + (n / 64) % 64, 0x80 + n % 64]
    else [0xF0 + n / 262144, 0x80 + (n / 4096) % 64, 0x80 + (n / 64) % 64, 0x80 + n % 64]
  }

  /** `s.encode()`: UTF-8. */
  function Utf8(s: string): (r: seq<byte>)
    ensures |s| <= |r| <= 4 * |s|
  {
    if s == [] then [] else EncodeChar(s[0]) + Utf8(s[1..])
  }

  predicate IsCont(b: byte) { 0x80 <= b < 0xC0 }

  /** The number of bytes of the sequence that a leading byte opens, 0 for a byte that opens none. */
  function SeqLen(b: byte): nat {
    if b < 0x80 then 1
    else if 0xC0 <= b < 0xE0 then 2
    else if 0xE0 <= b < 0xF0 then 3
    else if 0xF0 <= b < 0xF8 then 4
    else 0
  }

  /** The scalar value encoded by one byte sequence of the length its first byte announces. */
  function DecodeScalar(bs: seq<byte>): Option<char>
    requires |bs| > 0 && SeqLen(bs[0]) == |bs|
  {
    var n := ScalarValue(bs);
    if forall i :: 1 <= i < |bs| ==> IsCont(bs[i]) then
      if (0 <= n < 0xD800 || 0xE000 <= n < 0x11_0000) && |EncodeChar(n as char)| == |bs| then Some(n as char) else None
    else None
  }

  function ScalarValue(bs: seq<byte>): int
    requires 1 <= |bs| <= 4
  {
    var b0 := bs[0] as int;
    if |bs| == 1 then b0
    else if |bs| == 2 then (b0 - 0xC0) * 64 + (bs[1] as int - 0x80)
    else if |bs| == 3 then (b0 - 0xE0) * 4096 + (bs[1] as int - 0x80) * 64 + (bs[2] as int - 0x80)
    else (b0 - 0xF0) * 262144 + (bs[1] as int - 0x80) * 4096 + (bs[2] as int - 0x80) * 64 + (bs[3] as int - 0x80)
  }

  /** `b.decode()`: strict UTF-8 decoding; malformed input raises (`None`). */
  function DecodeUtf8(bs: seq<byte>): Option<string>
    decreases |bs|
  {
    if bs == [] then Some("")
    else
      var k := SeqLen(bs[0]);
      if k == 0 || |bs| < k then None
      else match DecodeScalar(bs[..k])
        case None => None
        case Some(c) =>
          match DecodeUtf8(bs[k..])
          case None => None
          case Some(rest) => Some([c] + rest)
  }

  lemma EncodeCharDecodes(c: char)
    ensures var e := EncodeChar(c); SeqLen(e[0]) == |e| && DecodeScalar(e) == Some(c)
  {
    var n := c as int;
    var e := EncodeChar(c);
    if n < 0x80 {
    } else if n < 0x800 {
      TwoBytes(n);
    } else if n < 0x1_0000 {
      ThreeBytes(n);
    } else {
      FourBytes(n);
    }
    assert ScalarValue(e) == n;
  }

  lemma TwoBytes(n: int)
    requires 0x80 <= n < 0x800
    ensures 0xC0 <= 0xC0 + n / 64 < 0xE0
    ensures (n / 64) * 64 + n % 64 == n
  {
  }

  lemma ThreeBytes(n: int)
    requires 0x800 <= n < 0x1_0000
    ensures 0xE0 <= 0xE0 + n / 4096 < 0xF0
    ensures (n / 4096) * 4096 + ((n / 64) % 64) * 64 + n % 64 == n
  {
    assert n / 64 == (n / 4096) * 64 + (n / 64) % 64;
  }

  lemma FourBytes(n: int)
    requires 0x1_0000 <= n < 0x11_0000
    ensures 0xF0 <= 0xF0 + n / 262144 < 0xF8
    ensures (n / 262144) * 262144 + ((n / 4096) % 64) * 4096 + ((n / 64) % 64) * 64 + n % 64 == n
  {
    assert n / 4096 == (n / 262144) * 64 + (n / 4096) % 64;
    assert n / 64 == (n / 4096) * 64 + (n / 64) % 64;
  }

  /** UTF-8 decoding inverts UTF-8 encoding. */
  lemma {:induction false} Utf8RoundTrip(s: string)
    ensures DecodeUtf8(Utf8(s)) == Some(s)
  {
    if s != [] {
      var e := EncodeChar(s[0]);
      EncodeCharDecodes(s[0]);
      Utf8RoundTrip(s[1..]);
      var bs := Utf8(s);
      assert bs[..|e|] == e;
      assert bs[|e|..] == Utf8(s[1..]);
      assert s == [s[0]] + s[1..];
    }
  }

  /** ASCII text encodes byte for byte. */
  lemma {:induction false} Utf8Ascii(s: string)
    requires forall i :: 0 <= i < |s| ==> s[i] as int < 0x80
    ensures |Utf8(s)| == |s|
    ensures forall i :: 0 <= i < |s| ==> Utf8(s)[i] == s[i] as int
  {
    if s != [] {
      Utf8Ascii(s[1..]);
    }
  }

  /** The base64 alphabet of RFC 4648, section 4, Table 1. */
  function Digit(n: nat): (c: char)
    requires n < 64
  {
    if n < 26 then ('A' as int + n) as char
    else if n < 52 then ('a' as int + n - 26) as char
    else if n < 62 then ('0' as int + n - 52) as char
    else if n == 62 then '+'
    else '/'
  }

  function DigitValue(c: char): (r: Option<nat>)
    ensures r.Some? ==> r.value < 64 && Digit(r.value) == c
  {
    if 'A' <= c <= 'Z' then Some(c as int - 'A' as int)
    else if 'a' <= c <= 'z' then Some(c as int - 'a' as int + 26)
    else if '0' <= c <= '9' then Some(c as int - '0' as int + 52)
    else if c == '+' then Some(62)
    else if c == '/' then Some(63)
    else None
  }

  lemma DigitValueOf(n: nat)
    requires n < 64
    ensures DigitValue(Digit(n)) == Some(n)
  {
  }

  /** `base64.b64encode`: three bytes become four digits; a final one or two bytes are padded with `=`. */
  function Encode(bs: seq<byte>): (r: string)
    ensures |r| == 4 * ((|bs| + 2) / 3)
    decreases |bs|
  {
    if |bs| == 0 then ""
    else if |bs| == 1 then
      [Digit(bs[0] / 4), Digit((bs[0] % 4) * 16), '=', '=']
    else if |bs| == 2 then
      [Digit(bs[0] / 4), Digit((bs[0] % 4) * 16 + bs[1] / 16), Digit((bs[1] % 16) * 4), '=']
    else
      [Digit(bs[0] / 4), Digit((bs[0] % 4) * 16 + bs[1] / 16), Digit((bs[1] % 16) * 4 + bs[2] / 64), Digit(bs[2] % 64)]
        + Encode(bs[3..])
  }

  /** The byte held by the first digit and the top two bits of the second. */
  function FirstByte(a: nat, b: nat): byte
    requires a < 64 && b < 64
  {
    a * 4 + b / 16
  }

  /** The byte held by the low four bits of the second digit and the top four of the third. */
  function SecondByte(b: nat, c: nat): byte
    requires b < 64 && c < 64
  {
    (b % 16) * 16 + c / 4
  }

  /** The byte held by the low two bits of the third digit and the fourth digit. */
  function ThirdByte(c: nat, d: nat): byte
    requires c < 64 && d < 64
  {
    (c % 4) * 64 + d
  }

  /** Strict base64 decoding of whole four-digit groups; anything malformed gives `None`. */
  function Decode(s: string): Option<seq<byte>>
    decreases |s|
  {
    if |s| == 0 then Some([])
    else if |s| < 4 || DigitValue(s[0]).None? || DigitValue(s[1]).None? then None
    else
      var a, b := DigitValue(s[0]).value, DigitValue(s[1]).value;
      if |s| == 4 && s[2] == '=' && s[3] == '=' then
        if b % 16 == 0 then Some([FirstByte(a, b)]) else None
      else if DigitValue(s[2]).None? then None
      else
        var c := DigitValue(s[2]).value;
        if |s| == 4 && s[3] == '=' then
          if c % 4 == 0 then Some([FirstByte(a, b), SecondByte(b, c)]) else None
        else if DigitValue(s[3]).None? then None
        else
          var d := DigitValue(s[3]).value;
          match Decode(s[4..])
          case None => None
          case Some(rest) => Some([FirstByte(a, b), SecondByte(b, c), ThirdByte(c, d)] + rest)
  }

  /** Decoding inverts encoding. */
  lemma {:induction false} RoundTrip(bs: seq<byte>)
    ensures Decode(Encode(bs)) == Some(bs)
    decreases |bs|
  {
    if |bs| == 1 {
      RoundTripOne(bs[0]);
      assert bs == [bs[0]];
    } else if |bs| == 2 {
      RoundTripTwo(bs[0], bs[1]);
      assert bs == [bs[0], bs[1]];
    } else if |bs| >= 3 {
      var rest := bs[3..];
      assert bs == [bs[0], bs[1], bs[2]] + rest;
      RoundTrip(rest);
      RoundTripGroup(bs[0], bs[1], bs[2], rest);
    }
  }

  lemma RoundTripOne(x: byte)
    ensures Decode(Encode([x])) == Some([x])
  {
    var a, b := x / 4, (x % 4) * 16;
    DigitValueOf(a);
    DigitValueOf(b);
    assert Encode([x]) == [Digit(a), Digit(b), '=', '='];
  }

  lemma RoundTripTwo(x: byte, y: byte)
    ensures Decode(Encode([x, y])) == Some([x, y])
  {
    var a, b, c := x / 4, (x % 4) * 16 + y / 16, (y % 16) * 4;
    DigitValueOf(a);
    DigitValueOf(b);
    DigitValueOf(c);
    var s := Encode([x, y]);
    assert s == [Digit(a), Digit(b), Digit(c), '='];
    FirstByteInverts(x, y);
    SecondByteInverts(x, y, 0);
  }

  lemma RoundTripGroup(x: byte, y: byte, z: byte, rest: seq<byte>)
    requires Decode(Encode(rest)) == Some(rest)
    ensures Decode(Encode([x, y, z] + rest)) == Some([x, y, z] + rest)
  {
    var a, b, c, d := x / 4, (x % 4) * 16 + y / 16, (y % 16) * 4 + z / 64, z % 64;
    DigitValueOf(a);
    DigitValueOf(b);
    DigitValueOf(c);
    DigitValueOf(d);
    var bs := [x, y, z] + rest;
    assert bs[3..] == rest;
    var s := Encode(bs);
    assert s == [Digit(a), Digit(b), Digit(c), Digit(d)] + Encode(rest);
    DecodeGroup(a, b, c, d, Encode(rest));
    FirstByteInverts(x, y);
    SecondByteInverts(x, y, z);
    ThirdByteInverts(y, z);
  }

  /** A group of four digits decodes to its three bytes ahead of what the rest decodes to. */
  lemma DecodeGroup(a: nat, b: nat, c: nat, d: nat, t: string)
    requires a < 64 && b < 64 && c < 64 && d < 64
    requires DigitValue(Digit(a)) == Some(a) && DigitValue(Digit(b)) == Some(b)
    requires DigitValue(Digit(c)) == Some(c) && DigitValue(Digit(d)) == Some(d)
    requires Decode(t).Some?
    ensures Decode([Digit(a), Digit(b), Digit(c), Digit(d)] + t)
         == Some([FirstByte(a, b), SecondByte(b, c), ThirdByte(c, d)] + Decode(t).value)
  {
    var s := [Digit(a), Digit(b), Digit(c), Digit(d)] + t;
    assert s[4..] == t;
    assert s[3] != '=' by { assert DigitValue(s[3]).Some?; }
  }

  lemma FirstByteInverts(x: byte, y: byte)
    ensures FirstByte(x / 4, (x % 4) * 16 + y / 16) == x
  {
  }

  lemma SecondByteInverts(x: byte, y: byte, z: byte)
    ensures SecondByte((x % 4) * 16 + y / 16, (y % 16) * 4 + z / 64) == y
  {
    var b, c := (x % 4) * 16 + y / 16, (y % 16) * 4 + z / 64;
    assert b % 16 == y / 16;
    assert c / 4 == y % 16;
  }

  lemma ThirdByteInverts(y: byte, z: byte)
    ensures ThirdByte((y % 16) * 4 + z / 64, z % 64) == z
  {
  }
}
