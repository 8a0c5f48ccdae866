/** fence_from_token: the number in the first half of a hexadecimal token. */
module Fence {
  import opened Basics

  datatype Error = ValueError

  predicate IsHex(c: char) { '0' <= c <= '9' || 'a' <= c <= 'f' || 'A' <= c <= 'F' }

  predicate AllHex(s: string) { forall i :: 0 <= i < |s| ==> IsHex(s[i]) }

  /** int(c, 16) of one digit, in either case. */
  function DigitValue(c: char): (r: int)
    requires IsHex(c)
    ensures 0 <= r < 16
  {
    if '0' <= c <= '9' then c as int - '0' as int
    else if 'a' <= c <= 'f' then c as int - 'a' as int + 10
    else c as int - 'A' as int + 10
  }

  function Pow16(k: nat): (r: nat)
    ensures r > 0
  {
    if k == 0 then 1 else 16 * Pow16(k - 1)
  }

  /** int(s, 16). */
  function HexValue(s: string): int
    requires AllHex(s)
  {
    if s == [] then 0 else DigitValue(s[0]) * Pow16(|s| - 1) + HexValue(s[1..])
  }

  function FenceFromToken(token: string): (r: Result<int, Error>) {
    if |token| != 32 || !AllHex(token) then Err(ValueError) else Ok(HexValue(token[..16]))
  }

  // ----- the reference: 16 lowercase digits of a number below 2**64

  function LowerChar(c: char): char { if 'A' <= c <= 'F' then (c as int + 32) as char else c }

  function Lower(s: string): string { if s == [] then [] else [LowerChar(s[0])] + Lower(s[1..]) }

  function DigitChar(d: int): char
    requires 0 <= d < 16
  {
    if d < 10 then ('0' as int + d) as char else ('a' as int + d - 10) as char
  }

  /** The k lowercase digits of n. */
  function Hex(n: nat, k: nat): (r: string)
    requires n < Pow16(k)
    ensures |r| == k
  {
    if k == 0 then []
    else
      DivideByPower(n, k - 1);
      [DigitChar(n / Pow16(k - 1))] + Hex(n % Pow16(k - 1), k - 1)
  }

  /** The first base 16 digit of a number of k + 1 digits. */
  lemma DivideByPower(n: nat, k: nat)
    requires n < Pow16(k + 1)
    ensures 0 <= n / Pow16(k) < 16 && 0 <= n % Pow16(k) < Pow16(k)
    ensures n == n / Pow16(k) * Pow16(k) + n % Pow16(k)
  {
    var p := Pow16(k);
    var q := n / p;
    assert n == p * q + n % p;
    if q >= 16 {
      assert p * q >= p * 16 by { Monotone(p, 16, q); }
      assert false;
    }
  }

  lemma Monotone(p: nat, a: int, b: int)
    requires a <= b
    ensures a * p <= b * p && p * a <= p * b
  {
  }

  lemma {:induction false} ValueBelow(s: string)
    requires AllHex(s)
    ensures 0 <= HexValue(s) < Pow16(|s|)
  {
    if s != [] {
      ValueBelow(s[1..]);
      var p := Pow16(|s| - 1);
      Monotone(p, 0, DigitValue(s[0]));
      Monotone(p, DigitValue(s[0]), 15);
    }
  }

  /** A quotient and a remainder are unique. */
  lemma QuotientUnique(n: int, p: nat, d: int, r: int)
    requires p > 0 && n == d * p + r && 0 <= r < p
    ensures n / p == d && n % p == r
  {
    var q := n / p;
    assert n == p * q + n % p;
    if q > d {
      Monotone(p, d + 1, q);
      assert false;
    }
    if q < d {
      Monotone(p, q + 1, d);
      assert false;
    }
  }

  /** Printing the value gives the digits back, in lower case. */
  lemma {:induction false} HexOfValue(s: string)
    requires AllHex(s)
    ensures 0 <= HexValue(s) < Pow16(|s|) && Hex(HexValue(s), |s|) == Lower(s)
  {
    ValueBelow(s);
    if s != [] {
      ValueBelow(s[1..]);
      QuotientUnique(HexValue(s), Pow16(|s| - 1), DigitValue(s[0]), HexValue(s[1..]));
      HexOfValue(s[1..]);
    }
  }

  /** The digits of a number have its value. */
  lemma {:induction false} ValueOfHex(n: nat, k: nat)
    requires n < Pow16(k)
    ensures AllHex(Hex(n, k)) && HexValue(Hex(n, k)) == n && Lower(Hex(n, k)) == Hex(n, k)
  {
    if k > 0 {
      DivideByPower(n, k - 1);
      ValueOfHex(n % Pow16(k - 1), k - 1);
      assert Hex(n, k)[1..] == Hex(n % Pow16(k - 1), k - 1);
    }
  }

  const TWO64: int := 0x1_0000_0000_0000_0000

  lemma Sixteen()
    ensures Pow16(16) == TWO64
  {
    assert Pow16(4) == 0x1_0000;
    assert Pow16(8) == 0x1_0000_0000;
    assert Pow16(12) == 0x1_0000_0000_0000;
  }

  // ----- what fence_from_token promises

  /**
   A fence comes of exactly the texts of 32 hexadecimal digits; any other length or character, in either
   half, is a ValueError.
   */
  lemma FenceAccepts(token: string)
    ensures FenceFromToken(token) == Err(ValueError) <==>
      |token| != 32 || exists i :: 0 <= i < |token| && token[i] !in "0123456789abcdefABCDEF"
  {
    forall i | 0 <= i < |token| ensures IsHex(token[i]) <==> token[i] in "0123456789abcdefABCDEF" { HexDigits(token[i]); }
  }

  lemma HexDigits(c: char)
    ensures IsHex(c) <==> c in "0123456789abcdefABCDEF"
  {
    var n := c as int;
    if '0' <= c <= '9' { assert "0123456789abcdefABCDEF"[n - 48] == c; }
    if 'a' <= c <= 'f' { assert "0123456789abcdefABCDEF"[n - 87] == c; }
    if 'A' <= c <= 'F' { assert "0123456789abcdefABCDEF"[n - 49] == c; }
  }

  /** Reading on by one digit: sixteen times the value so far, and the digit. */
  lemma {:induction false} NextDigit(s: string, c: char)
    requires AllHex(s) && IsHex(c)
    ensures AllHex(s + [c]) && HexValue([]) == 0
    ensures HexValue(s + [c]) == 16 * HexValue(s) +
      if '0' <= c <= '9' then c as int - 48 else if 'a' <= c <= 'f' then c as int - 87 else c as int - 55
  {
    var t := s + [c];
    if s == [] {
      assert t[1..] == [] && Pow16(0) == 1;
    } else {
      NextDigit(s[1..], c);
      assert t[1..] == s[1..] + [c] && t[0] == s[0];
      var d, p := DigitValue(s[0]), Pow16(|s| - 1);
      assert Pow16(|s|) == 16 * p;
      assert d * (16 * p) == 16 * (d * p);
    }
  }

  /** Every number below 2**64 is the fence of the tokens that begin with its digits, and of no other lowercase prefix. */
  lemma FenceBijection(token: string, n: nat)
    requires |token| == 32 && AllHex(token) && n < TWO64
    ensures n < Pow16(16)
    ensures FenceFromToken(token) == Ok(n) <==> Lower(token[..16]) == Hex(n, 16)
    ensures FenceFromToken(token).Ok? && 0 <= FenceFromToken(token).value < TWO64
  {
    Sixteen();
    HexOfValue(token[..16]);
    ValueOfHex(n, 16);
    ValueOfLower(token[..16]);
  }

  /** Two tokens have the same fence exactly if their first halves agree but for case; the second half is ignored. */
  lemma FenceEqual(t: string, u: string)
    requires FenceFromToken(t).Ok? && FenceFromToken(u).Ok?
    ensures FenceFromToken(t) == FenceFromToken(u) <==> Lower(t[..16]) == Lower(u[..16])
  {
    HexOfValue(t[..16]);
    HexOfValue(u[..16]);
    Sixteen();
    ValueOfLower(t[..16]);
    ValueOfLower(u[..16]);
  }

  lemma {:induction false} ValueOfLower(s: string)
    requires AllHex(s)
    ensures AllHex(Lower(s)) && HexValue(Lower(s)) == HexValue(s) && |Lower(s)| == |s|
  {
    if s != [] { ValueOfLower(s[1..]); }
  }

  /** Comparison of texts of equal length, character by character. */
  predicate LexLess(a: string, b: string)
    requires |a| == |b|
  {
    a != [] && (a[0] < b[0] || (a[0] == b[0] && LexLess(a[1..], b[1..])))
  }

  predicate LowerHex(s: string) { forall i :: 0 <= i < |s| ==> IsHex(s[i]) && !('A' <= s[i] <= 'F') }

  /** The higher digit decides, then the rest. */
  lemma HigherDecides(p: nat, x: int, y: int, u: int, v: int)
    requires 0 <= u < p && 0 <= v < p
    ensures x * p + u < y * p + v <==> x < y || (x == y && u < v)
  {
    if x < y {
      Monotone(p, x + 1, y);
    } else if y < x {
      Monotone(p, y + 1, x);
    }
  }

  /** Lowercase digits are ordered as characters. */
  lemma DigitOrder(c: char, d: char)
    requires IsHex(c) && IsHex(d) && !('A' <= c <= 'F') && !('A' <= d <= 'F')
    ensures (DigitValue(c) < DigitValue(d) <==> c < d) && (DigitValue(c) == DigitValue(d) <==> c == d)
  {
  }

  lemma {:induction false} OrderOfValues(a: string, b: string)
    requires |a| == |b| && LowerHex(a) && LowerHex(b)
    ensures AllHex(a) && AllHex(b)
    ensures HexValue(a) < HexValue(b) <==> LexLess(a, b)
  {
    if a != [] {
      OrderOfValues(a[1..], b[1..]);
      ValueBelow(a[1..]);
      ValueBelow(b[1..]);
      DigitOrder(a[0], b[0]);
      HigherDecides(Pow16(|a| - 1), DigitValue(a[0]), DigitValue(b[0]), HexValue(a[1..]), HexValue(b[1..]));
    }
  }

  /** Later fences are those whose token prefix sorts later: numeric order is lexicographic order of lowercase prefixes. */
  lemma FenceOrder(t: string, u: string)
    requires FenceFromToken(t).Ok? && FenceFromToken(u).Ok? && LowerHex(t[..16]) && LowerHex(u[..16])
    ensures FenceFromToken(t).value < FenceFromToken(u).value <==> LexLess(t[..16], u[..16])
  {
    OrderOfValues(t[..16], u[..16]);
  }
}
