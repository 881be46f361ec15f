/** UTF-8 between Rust strings (sequences of scalars) and bytes (RFC 3629). */
module Utf8 {
  import opened Wrappers

  type byte = b: int | 0 <= b < 256

  function EncodeChar(c: char): (r: seq<byte>)
    ensures 1 <= |r| <= 4
  {
    var n := c as int;
    if n < 0x80 then [n]
    else if n < 0x800 then [0xC0 + n / 0x40, 0x80 + n % 0x40]
    else if n < 0x10000 then [0xE0 + n / 0x1000, 0x80 + n / 0x40 % 0x40, 0x80 + n % 0x40]
    else [0xF0 + n / 0x40000, 0x80 + n / 0x1000 % 0x40, 0x80 + n / 0x40 % 0x40, 0x80 + n % 0x40]
  }

  /** `str::as_bytes`. */
  function ToBytes(s: string): seq<byte> {
    if s == "" then [] else EncodeChar(s[0]) + ToBytes(s[1..])
  }

  predicate Continues(b: byte) {
    0x80 <= b < 0xC0
  }

  predicate IsScalar(n: int) {
    0 <= n < 0xD800 || 0xE000 <= n < 0x110000
  }

  /** The scalar value spelled by the first bytes, and how many they are. */
  function DecodeChar(b: seq<byte>): (r: Option<(char, nat)>)
    requires b != []
    ensures r.Some? ==> 1 <= r.value.1 <= |b|
  {
    if b[0] < 0x80 then Some((b[0] as char, 1))
    else if 0xC0 <= b[0] < 0xE0 && |b| >= 2 && Continues(b[1]) then
      var n: int := (b[0] as int - 0xC0) * 0x40 + (b[1] as int - 0x80);
      if n >= 0x80 then Some((n as char, 2)) else None
    else if 0xE0 <= b[0] < 0xF0 && |b| >= 3 && Continues(b[1]) && Continues(b[2]) then
      var n: int := (b[0] as int - 0xE0) * 0x1000 + (b[1] as int - 0x80) * 0x40 + (b[2] as int - 0x80);
      if n >= 0x800 && IsScalar(n) then Some((n as char, 3)) else None
    else if 0xF0 <= b[0] < 0xF8 && |b| >= 4 && Continues(b[1]) && Continues(b[2]) && Continues(b[3]) then
      var n: int := (b[0] as int - 0xF0) * 0x40000 + (b[1] as int - 0x80) * 0x1000 + (b[2] as int - 0x80) * 0x40 + (b[3] as int - 0x80);
      if n >= 0x10000 && IsScalar(n) then Some((n as char, 4)) else None
    else None
  }

  /** `str::from_utf8`. */
  function FromBytes(b: seq<byte>): Option<string> {
    if b == [] then Some("")
    else
      match DecodeChar(b)
      case None => None
      case Some((c, n)) =>
        match FromBytes(b[n..])
        case None => None
        case Some(rest) => Some([c] + rest)
  }

  lemma DecodeEncodedChar(c: char, k: seq<byte>)
    ensures DecodeChar(EncodeChar(c) + k) == Some((c, |EncodeChar(c)|))
  {
    var n := c as int;
    assert n / 0x40 / 0x40 == n / 0x1000 && n / 0x1000 / 0x40 == n / 0x40000;
  }

  lemma EncodeDecodedChar(b: seq<byte>)
    requires b != [] && DecodeChar(b).Some?
    ensures var (c, n) := DecodeChar(b).value; EncodeChar(c) == b[..n]
  {
    var (c, n) := DecodeChar(b).value;
    if n == 1 {
      assert b[..1] == [b[0]];
    } else if n == 2 {
      Digits2(b[0] as int - 0xC0, b[1] as int - 0x80);
      assert b[..2] == [b[0], b[1]];
    } else if n == 3 {
      Digits3(b[0] as int - 0xE0, b[1] as int - 0x80, b[2] as int - 0x80);
      assert b[..3] == [b[0], b[1], b[2]];
    } else {
      Digits4(b[0] as int - 0xF0, b[1] as int - 0x80, b[2] as int - 0x80, b[3] as int - 0x80);
      assert b[..4] == [b[0], b[1], b[2], b[3]];
    }
  }

  lemma Digits2(x: int, y: int)
    requires 0 <= x && 0 <= y < 0x40
    ensures var n := x * 0x40 + y; n / 0x40 == x && n % 0x40 == y
  {
  }

  lemma Digits3(x: int, y: int, z: int)
    requires 0 <= x && 0 <= y < 0x40 && 0 <= z < 0x40
    ensures var n := x * 0x1000 + y * 0x40 + z; n / 0x1000 == x && n / 0x40 % 0x40 == y && n % 0x40 == z
  {
    Digits2(x * 0x40 + y, z);
    Digits2(x, y);
  }

  lemma Digits4(w: int, x: int, y: int, z: int)
    requires 0 <= w && 0 <= x < 0x40 && 0 <= y < 0x40 && 0 <= z < 0x40
    ensures var n := w * 0x40000 + x * 0x1000 + y * 0x40 + z;
            n / 0x40000 == w && n / 0x1000 % 0x40 == x && n / 0x40 % 0x40 == y && n % 0x40 == z
  {
    Digits3(w * 0x40 + x, y, z);
    Digits2(w, x);
  }

  lemma {:induction false} DecodeOfEncode(s: string)
    ensures FromBytes(ToBytes(s)) == Some(s)
  {
    if s != "" {
      var rest := ToBytes(s[1..]);
      DecodeEncodedChar(s[0], rest);
      assert ToBytes(s)[|EncodeChar(s[0])|..] == rest;
      DecodeOfEncode(s[1..]);
      assert s == [s[0]] + s[1..];
    }
  }

  lemma {:induction false} EncodeOfDecode(b: seq<byte>)
    requires FromBytes(b).Some?
    ensures ToBytes(FromBytes(b).value) == b
  {
    if b != [] {
      var (c, n) := DecodeChar(b).value;
      EncodeDecodedChar(b);
      EncodeOfDecode(b[n..]);
      var rest := FromBytes(b[n..]).value;
      assert FromBytes(b).value == [c] + rest && ([c] + rest)[1..] == rest;
      assert b == b[..n] + b[n..];
    }
  }

  /** `from_utf8` accepts exactly the encodings of strings, and inverts them. */
  lemma DecodeIffEncode(b: seq<byte>, s: string)
    ensures FromBytes(b) == Some(s) <==> b == ToBytes(s)
  {
    DecodeOfEncode(s);
    if FromBytes(b).Some? {
      EncodeOfDecode(b);
    }
  }

  lemma {:induction false} EncodeConcat(a: string, b: string)
    ensures ToBytes(a + b) == ToBytes(a) + ToBytes(b)
  {
    if a == "" {
      assert a + b == b;
    } else {
      assert (a + b)[1..] == a[1..] + b;
      EncodeConcat(a[1..], b);
    }
  }

  /** An ASCII byte occurs in the encoding only as itself. */
  lemma {:induction false} AsciiBytes(s: string, b: byte)
    requires b < 0x80 && b in ToBytes(s)
    ensures b as char in s
  {
    var i :| 0 <= i < |ToBytes(s)| && ToBytes(s)[i] == b;
    var n := |EncodeChar(s[0])|;
    if i < n {
      assert ToBytes(s)[i] == EncodeChar(s[0])[i];
    } else {
      assert ToBytes(s)[i] == ToBytes(s[1..])[i - n];
      AsciiBytes(s[1..], b);
    }
  }
}
