/** Decimal numbers as str() prints and int() reads them, on the ASCII subset. */
module Decimal {
  import opened Basics

  predicate IsDigit(c: char) { '0' <= c <= '9' }

  function Digit(d: int): char
    requires 0 <= d < 10
  {
    ('0' as int + d) as char
  }

  function DigitValue(c: char): int
    requires IsDigit(c)
  {
    c as int - '0' as int
  }

  /** str(n) of a natural number. */
  function Print(n: nat): (r: string) {
    if n < 10 then [Digit(n)] else Print(n / 10) + [Digit(n % 10)]
  }

  /** str(n). */
  function PrintInt(n: int): string { if n < 0 then "-" + Print(-n) else Print(n) }

  predicate AllDigits(s: string) { forall i :: 0 <= i < |s| ==> IsDigit(s[i]) }

  /** The value of a digit string, most significant digit first. */
  function Value(s: string): nat
    requires AllDigits(s)
  {
    if s == [] then 0 else Value(s[..|s| - 1]) * 10 + DigitValue(s[|s| - 1])
  }

  /** Digits with single underscores between them; before says that a digit stands before s. */
  predicate Grouped(s: string, before: bool) {
    if s == [] then before
    else if s[0] == '_' then before && Grouped(s[1..], false)
    else IsDigit(s[0]) && Grouped(s[1..], true)
  }

  function Digits(s: string): (r: string) {
    if s == [] then [] else (if s[0] == '_' then [] else [s[0]]) + Digits(s[1..])
  }

  /** sys.get_int_max_str_digits() of an unconfigured interpreter. */
  const MAX_STR_DIGITS := 4300

  predicate Signed(s: string) { s != [] && (s[0] == '+' || s[0] == '-') }

  /** int(s) for text without whitespace; None stands for ValueError. */
  function ParseInt(s: string): (r: Option<int>) {
    var body := if Signed(s) then s[1..] else s;
    if Grouped(body, false) && AllDigits(Digits(body)) && |Digits(body)| <= MAX_STR_DIGITS then
      var v: int := Value(Digits(body));
      Some(if Signed(s) && s[0] == '-' then -v else v)
    else None
  }

  /** Printing gives digits, no leading zero, and the value back. */
  lemma {:induction false} PrintValue(n: nat)
    ensures AllDigits(Print(n)) && Print(n) != [] && Value(Print(n)) == n
    ensures n > 0 ==> Print(n)[0] != '0'
  {
    if n >= 10 {
      PrintValue(n / 10);
      assert Print(n)[..|Print(n)| - 1] == Print(n / 10);
    } else {
      assert Print(n)[..0] == "";
    }
  }

  function Pow10(k: nat): nat { if k == 0 then 1 else 10 * Pow10(k - 1) }

  /** A number has k digits or fewer exactly below the k-th power of ten. */
  lemma {:induction false} PrintLength(n: nat, k: nat)
    requires k > 0
    ensures |Print(n)| <= k <==> n < Pow10(k)
  {
    if n >= 10 {
      if k > 1 {
        PrintLength(n / 10, k - 1);
      } else {
        PrintValue(n / 10);
        assert Pow10(1) == 10 * Pow10(0) == 10;
      }
    } else {
      Pow10Grows(k);
    }
  }

  lemma {:induction false} Pow10Grows(k: nat)
    requires k > 0
    ensures Pow10(k) >= 10
  {
    if k > 1 { Pow10Grows(k - 1); }
  }

  lemma {:induction false} PlainDigits(s: string, before: bool)
    requires AllDigits(s) && (s != [] || before)
    ensures Grouped(s, before) && Digits(s) == s
  {
    if s != [] { PlainDigits(s[1..], true); }
  }

  /** int(s) of a digit string of reasonable length is its value. */
  lemma ParseDigits(s: string)
    requires s != [] && AllDigits(s) && |s| <= MAX_STR_DIGITS
    ensures ParseInt(s) == Some(Value(s))
  {
    PlainDigits(s, false);
    assert IsDigit(s[0]);
  }

  /** Digits alone are a number exactly if there are 4300 of them at most. */
  lemma DigitLimit(s: string)
    requires s != [] && AllDigits(s)
    ensures ParseInt(s) == if |s| <= 4300 then Some(Value(s)) else None
  {
    PlainDigits(s, false);
    assert IsDigit(s[0]);
  }

  /** int(str(n)) == n, up to the interpreter's digit limit. */
  lemma ParsePrint(n: int)
    requires 0 - Pow10(MAX_STR_DIGITS) < n < Pow10(MAX_STR_DIGITS)
    ensures ParseInt(PrintInt(n)) == Some(n)
  {
    var m := if n < 0 then -n else n;
    PrintValue(m);
    PrintLength(m, MAX_STR_DIGITS);
    ParseDigits(Print(m));
    if n < 0 {
      assert PrintInt(n)[1..] == Print(m);
      PlainDigits(Print(m), false);
    }
  }

  lemma OneDigit(s: string)
    requires |s| == 1 && IsDigit(s[0])
    ensures AllDigits(s) && Value(s) == DigitValue(s[0]) && Grouped(s, false) && Grouped(s, true) && Digits(s) == s
  {
    assert s[..0] == "" && s[1..] == "";
  }

  lemma TwoDigits(s: string)
    requires |s| == 2 && IsDigit(s[0]) && IsDigit(s[1])
    ensures AllDigits(s) && Value(s) == 10 * DigitValue(s[0]) + DigitValue(s[1])
  {
    OneDigit(s[..1]);
  }

  /** One sign, and digits with single underscores between them. */
  lemma IntAccepts()
    ensures ParseInt("7") == Some(7) && ParseInt("+7") == Some(7) && ParseInt("-7") == Some(-7) && ParseInt("1_2") == Some(12)
  {
    OneDigit("7");
    OneDigit("2");
    TwoDigits("12");
    assert "+7"[1..] == "7" && "-7"[1..] == "7" && "1_2"[1..] == "_2" && "_2"[1..] == "2";
    assert Digits("_2") == "2" && Digits("1_2") == ['1'] + "2" == "12";
    assert Grouped("_2", true) && Grouped("1_2", false);
  }

  lemma IntRefuses()
    ensures ParseInt("") == None && ParseInt("-") == None && ParseInt("+-7") == None && ParseInt("1.0") == None
    ensures ParseInt("_7") == None && ParseInt("7_") == None && ParseInt("1__2") == None
  {
    assert "+-7"[1..] == "-7" && "-"[1..] == "" && "1.0"[1..] == ".0" && !Grouped(".0", true);
    assert "7_"[1..] == "_" && "_"[1..] == "" && !Grouped("_", true);
    assert "1__2"[1..] == "__2" && "__2"[1..] == "_2" && !Grouped("_2", false) && !Grouped("__2", true);
  }
}
