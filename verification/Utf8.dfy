/** The check of str::from_utf8, against the encoding of section 3 of RFC 3629. */
module Utf8 {
  import opened GatewayProtocol

  predicate IsScalar(c: int) {
    0 <= c < 0xD800 || 0xE000 <= c < 0x11_0000
  }

  /** The octets of a character. */
  function EncodeScalar(c: int): (e: seq<Byte>)
    requires IsScalar(c)
    ensures 1 <= |e| <= 4
  {
    if c < 0x80 then [c]
    else if c < 0x800 then [0xC0 + c / 0x40, 0x80 + c % 0x40]
    else if c < 0x1_0000 then [0xE0 + c / 0x1000, 0x80 + c / 0x40 % 0x40, 0x80 + c % 0x40]
    else [0xF0 + c / 0x4_0000, 0x80 + c / 0x1000 % 0x40, 0x80 + c / 0x40 % 0x40, 0x80 + c % 0x40]
  }

  /** The character c is encoded at position i. */
  predicate EncodedAt(s: seq<Byte>, i: nat, c: int) {
    IsScalar(c) && i + |EncodeScalar(c)| <= |s| && s[i..i + |EncodeScalar(c)|] == EncodeScalar(c)
  }

  /** The character that the octets at position i encode, if they are well-formed. */
  function DecodeScalar(s: seq<Byte>, i: nat): int
    requires i < |s| && ValidUtf8(s, i)
  {
    var a: int := s[i];
    if a < 0x80 then a
    else
      var b: int := s[i + 1] - 0x80;
      if a < 0xE0 then (a - 0xC0) * 0x40 + b
      else
        var c: int := s[i + 2] - 0x80;
        if a < 0xF0 then (a - 0xE0) * 0x1000 + b * 0x40 + c
        else
          var d: int := s[i + 3] - 0x80;
          (a - 0xF0) * 0x4_0000 + b * 0x1000 + c * 0x40 + d
  }

  lemma Digits(hi: int, lo: int)
    requires 0 <= lo < 0x40
    ensures (hi * 0x40 + lo) / 0x40 == hi && (hi * 0x40 + lo) % 0x40 == lo
  {
  }

  /** The octets of a number given by its digits to base 64. */
  lemma EncodedDigits(a: int, b: int, c: int, d: int)
    requires 0 <= a && 0 <= b < 0x40 && 0 <= c < 0x40 && 0 <= d < 0x40
    ensures
      var n := ((a * 0x40 + b) * 0x40 + c) * 0x40 + d;
      && n % 0x40 == d && n / 0x40 == (a * 0x40 + b) * 0x40 + c
      && n / 0x40 % 0x40 == c && n / 0x1000 == a * 0x40 + b
      && n / 0x1000 % 0x40 == b && n / 0x4_0000 == a
  {
    var n := ((a * 0x40 + b) * 0x40 + c) * 0x40 + d;
    Digits((a * 0x40 + b) * 0x40 + c, d);
    Digits(a * 0x40 + b, c);
    Digits(a, b);
    assert n / 0x1000 == n / 0x40 / 0x40;
    assert n / 0x4_0000 == n / 0x1000 / 0x40;
  }

  lemma DecodesAt(s: seq<Byte>, i: nat)
    requires i < |s| && ValidUtf8(s, i)
    ensures EncodedAt(s, i, DecodeScalar(s, i)) && ValidUtf8(s, i + |EncodeScalar(DecodeScalar(s, i))|)
  {
    var a: int := s[i];
    if a < 0x80 {
      assert s[i..i + 1] == [s[i]];
    } else if a < 0xE0 {
      EncodedDigits(0, 0, a - 0xC0, s[i + 1] - 0x80);
      assert s[i..i + 2] == [s[i], s[i + 1]];
    } else if a < 0xF0 {
      EncodedDigits(0, a - 0xE0, s[i + 1] - 0x80, s[i + 2] - 0x80);
      assert s[i..i + 3] == [s[i], s[i + 1], s[i + 2]];
    } else {
      EncodedDigits(a - 0xF0, s[i + 1] - 0x80, s[i + 2] - 0x80, s[i + 3] - 0x80);
      assert s[i..i + 4] == [s[i], s[i + 1], s[i + 2], s[i + 3]];
    }
  }

  lemma EncodedIsValid(s: seq<Byte>, i: nat, c: int)
    requires EncodedAt(s, i, c) && ValidUtf8(s, i + |EncodeScalar(c)|)
    ensures ValidUtf8(s, i)
  {
    var e := EncodeScalar(c);
    assert s[i] == s[i..i + |e|][0] == e[0];
    if c >= 0x80 {
      assert s[i + 1] == s[i..i + |e|][1] == e[1];
      assert Continuation(s, i + 1);
    }
    if c >= 0x800 {
      assert s[i + 2] == s[i..i + |e|][2] == e[2];
      assert Continuation(s, i + 2);
    }
    if c >= 0x1_0000 {
      assert s[i + 3] == s[i..i + |e|][3] == e[3];
      assert Continuation(s, i + 3);
    }
  }

  /** The check accepts exactly the encodings of texts: a character, and then the rest of the text. */
  lemma ValidExactly(s: seq<Byte>, i: nat)
    requires i < |s|
    ensures ValidUtf8(s, i) <==> exists c :: EncodedAt(s, i, c) && ValidUtf8(s, i + |EncodeScalar(c)|)
  {
    if ValidUtf8(s, i) {
      DecodesAt(s, i);
    }
    if c :| EncodedAt(s, i, c) && ValidUtf8(s, i + |EncodeScalar(c)|) {
      EncodedIsValid(s, i, c);
    }
  }

  /** The text of a field ends before its first zero byte; octets that are no text count as none. */
  lemma FieldText(f: seq<Byte>, n: nat)
    requires n <= |f| && (forall i :: 0 <= i < n ==> f[i] != 0) && (n < |f| ==> f[n] == 0)
    ensures ValidUtf8(f[..n], 0) ==> AsciiFieldStr(f) == f[..n]
    ensures !ValidUtf8(f[..n], 0) ==> AsciiFieldStr(f) == []
  {
    assert FirstZero(f) == n;
  }
}
