/**
 UTF-8 as str.encode("utf-8") and bytes.decode("utf-8") compute it, per section 3 of RFC 3629.
 A char is a Unicode scalar value; Python's lone surrogates do not occur here.
 */
module Utf8 {
  import opened Basics

  type byte = x: int | 0 <= x < 256

  const NEWLINE: byte := 0x0A

  function EncodeChar(c: char): (r: seq<byte>) {
    var n := c as int;
    if n < 0x80 then [n]
    else if n < 0x800 then [0xC0 + n / 64, 0x80 + n % 64]
    else if n < 0x1_0000 then [0xE0 + n / 4096, 0x80 + n / 64 % 64, 0x80 + n % 64]
    else [0xF0 + n / 262144, 0x80 + n / 4096 % 64, 0x80 + n / 64 % 64, 0x80 + n % 64]
  }

  function Encode(s: string): (r: seq<byte>) {
    if s == [] then [] else EncodeChar(s[0]) + Encode(s[1..])
  }

  predicate Tail(b: byte) { 0x80 <= b < 0xC0 }

  /** The scalar value of a number that the bit layout of section 3 can carry, unless it is a surrogate or too large. */
  function Scalar(n: int): Option<char> {
    if 0 <= n < 0xD800 || 0xE000 <= n < 0x11_0000 then Some(n as char) else None
  }

  /** The six payload bits of a tail byte. */
  function Low(b: byte): int { b as int - 0x80 }

  function Two(b: seq<byte>): int
    requires |b| >= 2
  {
    (b[0] as int - 0xC0) * 64 + Low(b[1])
  }

  function Three(b: seq<byte>): int
    requires |b| >= 3
  {
    ((b[0] as int - 0xE0) * 64 + Low(b[1])) * 64 + Low(b[2])
  }

  function Four(b: seq<byte>): int
    requires |b| >= 4
  {
    (((b[0] as int - 0xF0) * 64 + Low(b[1])) * 64 + Low(b[2])) * 64 + Low(b[3])
  }

  function Reading(n: int, least: int, bytes: nat): Option<(char, nat)> {
    if n >= least && Scalar(n).Some? then Some((Scalar(n).value, bytes)) else None
  }

  /** The first character of b and its number of bytes; overlong forms, surrogates and stray bytes have none. */
  function DecodeChar(b: seq<byte>): (r: Option<(char, nat)>) {
    if |b| >= 1 && b[0] < 0x80 then Some((b[0] as char, 1))
    else if |b| >= 2 && 0xC0 <= b[0] < 0xE0 && Tail(b[1]) then Reading(Two(b), 0x80, 2)
    else if |b| >= 3 && 0xE0 <= b[0] < 0xF0 && Tail(b[1]) && Tail(b[2]) then Reading(Three(b), 0x800, 3)
    else if |b| >= 4 && 0xF0 <= b[0] < 0xF8 && Tail(b[1]) && Tail(b[2]) && Tail(b[3]) then Reading(Four(b), 0x1_0000, 4)
    else None
  }

  /** Strict decoding: None stands for UnicodeDecodeError. */
  function Decode(b: seq<byte>): (r: Option<string>)
    decreases |b|
  {
    if b == [] then Some([])
    else
      match DecodeChar(b)
      case None => None
      case Some(first) =>
        if first.1 == 0 || first.1 > |b| then None
        else
          var rest := Decode(b[first.1..]);
          if rest.None? then None else Some([first.0] + rest.value)
  }

  /** The base 64 digits of a number. */
  lemma Sextets(n: nat)
    ensures n == n / 64 * 64 + n % 64
    ensures n / 4096 == n / 64 / 64 && n / 262144 == n / 4096 / 64
  {
  }

  /** A character is read back whatever follows it. */
  lemma DecodeEncodedChar(c: char, rest: seq<byte>)
    ensures DecodeChar(EncodeChar(c) + rest) == Some((c, |EncodeChar(c)|))
  {
    var n := c as int;
    var e := EncodeChar(c);
    var b := e + rest;
    assert Scalar(n) == Some(c);
    Sextets(n);
    Sextets(n / 64);
    Sextets(n / 4096);
    assert forall i :: 0 <= i < |e| ==> b[i] == e[i];
    if n < 0x80 {
    } else if n < 0x800 {
      assert Two(b) == n;
    } else if n < 0x1_0000 {
      assert Three(b) == n;
    } else {
      assert Four(b) == n;
    }
  }

  lemma SextetsOf(n: int, high: int, low: int)
    requires n == high * 64 + low && 0 <= low < 64 && 0 <= high
    ensures n / 64 == high && n % 64 == low
  {
  }

  /** What decodes as one character is its encoding. */
  lemma EncodeDecodedChar(b: seq<byte>)
    requires DecodeChar(b).Some?
    ensures 1 <= DecodeChar(b).value.1 <= |b|
    ensures b[..DecodeChar(b).value.1] == EncodeChar(DecodeChar(b).value.0)
  {
    if b[0] >= 0x80 {
      if b[0] < 0xE0 {
        SextetsOf(Two(b), b[0] as int - 0xC0, Low(b[1]));
      } else if b[0] < 0xF0 {
        SextetsOf(Three(b), (b[0] as int - 0xE0) * 64 + Low(b[1]), Low(b[2]));
        SextetsOf(Three(b) / 64, b[0] as int - 0xE0, Low(b[1]));
        Sextets(Three(b));
      } else {
        SextetsOf(Four(b), ((b[0] as int - 0xF0) * 64 + Low(b[1])) * 64 + Low(b[2]), Low(b[3]));
        SextetsOf(Four(b) / 64, (b[0] as int - 0xF0) * 64 + Low(b[1]), Low(b[2]));
        SextetsOf(Four(b) / 4096, b[0] as int - 0xF0, Low(b[1]));
        Sextets(Four(b));
      }
    }
  }

  /** Decoding undoes encoding. */
  lemma {:induction false} DecodeEncode(s: string)
    ensures Decode(Encode(s)) == Some(s)
  {
    if s != [] {
      var first := EncodeChar(s[0]);
      DecodeEncodedChar(s[0], Encode(s[1..]));
      DecodeEncode(s[1..]);
      assert Encode(s)[|first|..] == Encode(s[1..]);
      assert s == [s[0]] + s[1..];
    }
  }

  lemma EncodeCons(c: char, rest: string)
    ensures Encode([c] + rest) == EncodeChar(c) + Encode(rest)
  {
    assert ([c] + rest)[1..] == rest;
  }

  /** The first character of a text that decodes. */
  lemma DecodeStep(b: seq<byte>) returns (c: char, tail: seq<byte>)
    requires b != [] && Decode(b).Some?
    ensures b == EncodeChar(c) + tail && |tail| < |b|
    ensures Decode(tail).Some? && Decode(b).value == [c] + Decode(tail).value
  {
    var first := DecodeChar(b).value;
    EncodeDecodedChar(b);
    c, tail := first.0, b[first.1..];
    assert b == b[..first.1] + tail;
  }

  /** Encoding undoes decoding: every byte string has at most one reading, and only its own encoding is read. */
  lemma {:induction false} EncodeDecode(b: seq<byte>)
    requires Decode(b).Some?
    ensures Encode(Decode(b).value) == b
    decreases |b|
  {
    if b != [] {
      var c, tail := DecodeStep(b);
      EncodeDecode(tail);
      EncodeCons(c, Decode(tail).value);
    }
  }

  lemma {:induction false} EncodeConcat(s: string, t: string)
    ensures Encode(s + t) == Encode(s) + Encode(t)
  {
    if s == [] {
      assert s + t == t;
    } else {
      assert (s + t)[1..] == s[1..] + t;
      EncodeConcat(s[1..], t);
    }
  }

  lemma NewlineChar(c: char)
    ensures NEWLINE in EncodeChar(c) <==> c == '\n'
  {
  }

  /** The byte 0x0A is produced by newlines only. */
  lemma {:induction false} NewlineOnly(s: string)
    ensures NEWLINE in Encode(s) <==> '\n' in s
  {
    if s != [] {
      NewlineChar(s[0]);
      NewlineOnly(s[1..]);
      assert s == [s[0]] + s[1..];
    }
  }

  predicate Ascii(s: string) { forall i :: 0 <= i < |s| ==> s[i] as int < 0x80 }

  /** Byte length: at least one byte a character, exactly one if and only if the text is ASCII. */
  lemma {:induction false} ByteLength(s: string)
    ensures |Encode(s)| >= |s|
    ensures |Encode(s)| == |s| <==> Ascii(s)
  {
    if s != [] {
      ByteLength(s[1..]);
      assert Ascii(s) <==> s[0] as int < 0x80 && Ascii(s[1..]);
    }
  }

  /** No encoding is the beginning of another one, except for texts of which one begins the other. */
  lemma {:induction false} PrefixCode(s: string, t: string)
    ensures Encode(s) <= Encode(t) <==> s <= t
  {
    if s <= t {
      EncodeConcat(s, t[|s|..]);
      assert s + t[|s|..] == t;
    }
    if Encode(s) <= Encode(t) { PrefixOnly(s, t); }
  }

  lemma PrefixBehind(first: seq<byte>, a: seq<byte>, b: seq<byte>)
    requires first + a <= first + b
    ensures a <= b
  {
    forall i | 0 <= i < |a| ensures a[i] == b[i] {
      assert (first + a)[|first| + i] == (first + b)[|first| + i];
    }
  }

  /** The first character of the bytes is that of both texts. */
  lemma SameFirst(s: string, t: string)
    requires s != [] && t != [] && Encode(s) <= Encode(t)
    ensures s[0] == t[0]
  {
    var first := EncodeChar(s[0]);
    var rest := Encode(t)[|first|..];
    assert Encode(t) == first + rest;
    DecodeEncodedChar(s[0], rest);
    DecodeEncodedChar(t[0], Encode(t[1..]));
  }

  lemma {:induction false} PrefixOnly(s: string, t: string)
    requires Encode(s) <= Encode(t)
    ensures s <= t
  {
    if s != [] {
      assert t != [];
      SameFirst(s, t);
      PrefixBehind(EncodeChar(s[0]), Encode(s[1..]), Encode(t[1..]));
      PrefixOnly(s[1..], t[1..]);
    }
  }

  /** An ASCII text encodes to its own codes, one byte each. */
  lemma {:induction false} AsciiBytes(s: string, i: nat)
    requires Ascii(s) && i < |s|
    ensures |Encode(s)| == |s| && Encode(s)[i] as int == s[i] as int
  {
    ByteLength(s);
    if i > 0 {
      AsciiBytes(s[1..], i - 1);
    }
  }

  predicate Lead(b: byte, least: int, most: int) { least <= b as int <= most }

  /** Two bytes that carry n: five bits and six. */
  predicate TwoBits(e: seq<byte>, n: int) {
    |e| == 2 && Lead(e[0], 0xC2, 0xDF) && Tail(e[1]) && n == (e[0] as int - 0xC0) * 64 + e[1] as int - 0x80
  }

  predicate ThreeBits(e: seq<byte>, n: int) {
    && |e| == 3 && Lead(e[0], 0xE0, 0xEF) && Tail(e[1]) && Tail(e[2])
    && n == (e[0] as int - 0xE0) * 4096 + (e[1] as int - 0x80) * 64 + e[2] as int - 0x80
  }

  predicate FourBits(e: seq<byte>, n: int) {
    && |e| == 4 && Lead(e[0], 0xF0, 0xF4) && Tail(e[1]) && Tail(e[2]) && Tail(e[3])
    && n == (e[0] as int - 0xF0) * 262144 + (e[1] as int - 0x80) * 4096 + (e[2] as int - 0x80) * 64 + e[3] as int - 0x80
  }

  /** The longer forms, bit by bit: the lead byte tells the length and carries the high bits, each tail byte carries six more. */
  lemma EncodedBits(c: char)
    ensures var n, e := c as int, EncodeChar(c);
      && (n <= 0x7F ==> e == [n])
      && (0x80 <= n <= 0x7FF ==> TwoBits(e, n))
      && (0x800 <= n <= 0xFFFF ==> ThreeBits(e, n))
      && (0x1_0000 <= n ==> FourBits(e, n))
  {
    var n := c as int;
    Sextets(n);
    Sextets(n / 64);
    Sextets(n / 4096);
  }
}
