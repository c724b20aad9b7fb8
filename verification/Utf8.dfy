/** UTF-8, as Python's `str.encode` and `bytes.decode` apply it to the answer of a turn. */
module Utf8 {
  import opened Text

  function EncodeChar(c: char): (b: Bytes)
    ensures 1 <= |b| <= 4
  {
    var n := c as int;
    if n < 0x80 then [n as byte]
    else if n < 0x800 then [(0xC0 + n / 64) as byte, (0x80 + n % 64) as byte]
    else if n < 0x10000 then [(0xE0 + n / 4096) as byte, (0x80 + n / 64 % 64) as byte, (0x80 + n % 64) as byte]
    else [(0xF0 + n / 262144) as byte, (0x80 + n / 4096 % 64) as byte, (0x80 + n / 64 % 64) as byte, (0x80 + n % 64) as byte]
  }

  function Encode(s: string): Bytes { if s == "" then [] else EncodeChar(s[0]) + Encode(s[1..]) }

  /** The number of bytes a first byte announces. */
  function Announced(b: byte): nat {
    if b < 0x80 then 1 else if b < 0xE0 then 2 else if b < 0xF0 then 3 else 4
  }

  lemma CharAnnounces(c: char)
    ensures Announced(EncodeChar(c)[0]) == |EncodeChar(c)|
  {
  }

  /** The code point of an encoded character. */
  function Value(b: Bytes): int
    requires 1 <= |b| <= 4
  {
    if |b| == 1 then b[0] as int
    else if |b| == 2 then (b[0] as int - 0xC0) * 64 + (b[1] as int - 0x80)
    else if |b| == 3 then (b[0] as int - 0xE0) * 4096 + (b[1] as int - 0x80) * 64 + (b[2] as int - 0x80)
    else (b[0] as int - 0xF0) * 262144 + (b[1] as int - 0x80) * 4096 + (b[2] as int - 0x80) * 64 + (b[3] as int - 0x80)
  }

  lemma Digits(n: nat)
    ensures n / 64 * 64 + n % 64 == n
    ensures n / 4096 * 4096 + n / 64 % 64 * 64 + n % 64 == n
    ensures n / 262144 * 262144 + n / 4096 % 64 * 4096 + n / 64 % 64 * 64 + n % 64 == n
  {
    assert n / 4096 == n / 64 / 64 && n / 262144 == n / 4096 / 64;
  }

  lemma ValueOfChar(c: char)
    ensures Value(EncodeChar(c)) == c as int
  {
    Digits(c as int);
  }

  lemma CharInjective(c: char, d: char)
    requires EncodeChar(c) == EncodeChar(d)
    ensures c == d
  {
    hide EncodeChar;
    ValueOfChar(c);
    ValueOfChar(d);
  }

  /** Different texts have different encodings. */
  lemma {:induction false} EncodeInjective(s: string, t: string)
    requires Encode(s) == Encode(t)
    ensures s == t
  {
    hide EncodeChar;
    if s == "" || t == "" {
    } else {
      var a, b := EncodeChar(s[0]), EncodeChar(t[0]);
      CharAnnounces(s[0]);
      CharAnnounces(t[0]);
      assert a[0] == Encode(s)[0] && b[0] == Encode(t)[0];
      assert a == Encode(s)[..|a|] && b == Encode(t)[..|b|];
      CharInjective(s[0], t[0]);
      assert Encode(s[1..]) == Encode(s)[|a|..] && Encode(t[1..]) == Encode(t)[|b|..];
      EncodeInjective(s[1..], t[1..]);
      assert [s[0]] + s[1..] == s && [t[0]] + t[1..] == t;
    }
  }

  /** Strict decoding: the text with this encoding, if there is one. */
  ghost function Decode(b: Bytes): (s: Option<string>)
    ensures s.Some? ==> Encode(s.value) == b
  {
    if t: string :| Encode(t) == b then Some(t) else None
  }

  lemma DecodeEncode(s: string)
    ensures Decode(Encode(s)) == Some(s)
  {
    EncodeInjective(s, Decode(Encode(s)).value);
  }

  /** One character of each length. */
  lemma Anchors()
    ensures EncodeChar('A') == [0x41] && EncodeChar('\U{e9}') == [0xC3, 0xA9] && EncodeChar('\U{20ac}') == [0xE2, 0x82, 0xAC]
    ensures EncodeChar('\U{1f600}') == [0xF0, 0x9F, 0x98, 0x80]
  {
  }
}
