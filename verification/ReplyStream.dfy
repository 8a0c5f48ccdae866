/** Reading reply lines off a connection: readline, _trim_response_line, and what end of file can do to a line. */
module ReplyStream {
  import opened Basics
  import opened Decimal
  import opened Utf8
  import opened Requests
  import opened RequestStream
  import opened Responses
  import Session

  const MAX_RESPONSE_LINE_BYTES := 1024 * 1024

  /** ConnectionError at end of file, RuntimeError for a line that is too long or not UTF-8. */
  datatype ReadError = Ended | BadLine

  function RStrip(s: string): string {
    if s != "" && (s[|s| - 1] == '\r' || s[|s| - 1] == '\n') then RStrip(s[..|s| - 1]) else s
  }

  /** _trim_response_line. */
  function Trim(raw: seq<byte>): Result<string, ReadError> {
    if |raw| > MAX_RESPONSE_LINE_BYTES || Decode(raw).None? then Err(BadLine) else Ok(RStrip(Decode(raw).value))
  }

  /** readline: to the newline, to the limit, or to the end of file, whichever comes first. */
  function RawLine(b: seq<byte>): (r: seq<byte>)
    ensures |r| <= |b| && r == b[..|r|]
  {
    var k := IndexOf(b, NEWLINE);
    var n := if k < |b| then k + 1 else k;
    if n <= MAX_RESPONSE_LINE_BYTES + 1 then b[..n] else b[..MAX_RESPONSE_LINE_BYTES + 1]
  }

  /** _read_line, and the bytes that are left. */
  function ReadReply(b: seq<byte>): (Result<string, ReadError>, seq<byte>) {
    if b == [] then (Err(Ended), []) else (Trim(RawLine(b)), b[|RawLine(b)|..])
  }

  /** A text that a server can send as one line and that is read back as it is. */
  predicate Sendable(s: string) {
    '\n' !in s && (s != "" ==> s[|s| - 1] != '\r') && |Encode(s)| < MAX_RESPONSE_LINE_BYTES
  }

  function Line(s: string): seq<byte> { Encode(s) + [NEWLINE] }

  lemma RawOf(s: string, rest: seq<byte>)
    requires '\n' !in s && |Encode(s)| < MAX_RESPONSE_LINE_BYTES
    ensures RawLine(Line(s) + rest) == Line(s)
  {
    NewlineOnly(s);
    IndexOfIn(Encode(s), NEWLINE, rest);
  }

  lemma TrimLine(s: string)
    requires Sendable(s)
    ensures Trim(Line(s)) == Ok(s)
  {
    EncodeConcat(s, "\n");
    assert Encode("\n") == [NEWLINE];
    DecodeEncode(s + "\n");
    var t := s + "\n";
    assert t[..|t| - 1] == s;
    if s != "" { assert s[|s| - 1] in s; }
    assert RStrip(s) == s;
    assert RStrip(t) == RStrip(s);
  }

  /** A sent line is read back, and nothing behind it is touched. */
  lemma ReadReplyOf(s: string, rest: seq<byte>)
    requires Sendable(s)
    ensures ReadReply(Line(s) + rest) == (Ok(s), rest)
  {
    RawOf(s, rest);
    TrimLine(s);
    assert (Line(s) + rest)[|Line(s)|..] == rest;
  }

  /** rstrip takes every carriage return and newline off the end, and nothing else. */
  lemma {:induction false} Stripped(s: string, ends: string)
    requires s == "" || s[|s| - 1] !in "\r\n"
    requires forall i :: 0 <= i < |ends| ==> ends[i] == '\r' || ends[i] == '\n'
    ensures RStrip(s + ends) == s
    decreases |ends|
  {
    if ends == "" {
      assert s + ends == s;
      var crlf := "\r\n";
      assert '\r' == crlf[0] && '\n' == crlf[1];
    } else {
      var front := ends[..|ends| - 1];
      assert (s + ends)[..|s + ends| - 1] == s + front;
      Stripped(s, front);
    }
  }

  lemma CrLfBytes(s: string)
    ensures Line(s + "\r") == Encode(s) + [13, 10] && Line(s + "\r") == Encode(s + "\r\n")
  {
    EncodeConcat(s, "\r");
    EncodeConcat(s, "\r\n");
    assert Encode("\r") == [13] && "\r\n"[1..] == "\n" && Encode("\n") == [NEWLINE];
    assert Encode("\r\n") == [13] + [10];
  }

  lemma TrimCrLf(s: string)
    requires Sendable(s) && |Encode(s)| <= 1_048_574
    ensures Trim(Line(s + "\r")) == Ok(s)
  {
    CrLfBytes(s);
    DecodeEncode(s + "\r\n");
    if s != "" { NoEnds(s); }
    Stripped(s, "\r\n");
  }

  /** A line that a server ends with carriage return and newline is read as the line without them. */
  lemma ReadCrLf(s: string, rest: seq<byte>)
    requires Sendable(s) && |Encode(s)| <= 1_048_574
    ensures ReadReply(Encode(s) + [13, 10] + rest) == (Ok(s), rest)
  {
    CrLfBytes(s);
    EncodeConcat(s, "\r");
    RawOf(s + "\r", rest);
    TrimCrLf(s);
    assert (Line(s + "\r") + rest)[|Line(s + "\r")|..] == rest;
  }

  lemma NoEnds(s: string)
    requires Sendable(s) && s != ""
    ensures s[|s| - 1] !in "\r\n"
  {
    assert s[|s| - 1] in s;
  }

  function SendAll(lines: seq<string>): seq<byte> { if lines == [] then [] else Line(lines[0]) + SendAll(lines[1..]) }

  /** The stream left after n reads, and what they returned. */
  function ReadMany(b: seq<byte>, n: nat): (seq<Result<string, ReadError>>, seq<byte>) {
    if n == 0 then ([], b)
    else
      var first := ReadReply(b);
      var others := ReadMany(first.1, n - 1);
      ([first.0] + others.0, others.1)
  }

  function AllOk(lines: seq<string>): seq<Result<string, ReadError>> {
    if lines == [] then [] else [Ok(lines[0])] + AllOk(lines[1..])
  }

  /** A whole stream of replies is read line by line, in order, and used up exactly. */
  lemma {:induction false} RepliesRoundTrip(lines: seq<string>, rest: seq<byte>)
    requires forall i :: 0 <= i < |lines| ==> Sendable(lines[i])
    ensures ReadMany(SendAll(lines) + rest, |lines|) == (AllOk(lines), rest)
  {
    if lines == [] {
      assert SendAll(lines) + rest == rest;
    } else {
      assert SendAll(lines) + rest == Line(lines[0]) + (SendAll(lines[1..]) + rest);
      ReadReplyOf(lines[0], SendAll(lines[1..]) + rest);
      RepliesRoundTrip(lines[1..], rest);
    }
  }

  // ----- a line cut off by the end of the connection

  /** More characters take more bytes. */
  lemma PrefixLength(s: string, k: nat, j: nat)
    requires k < j <= |s|
    ensures |Encode(s[..k])| < |Encode(s[..j])|
  {
    assert s[..j] == s[..k] + s[k..j];
    EncodeConcat(s[..k], s[k..j]);
    ByteLength(s[k..j]);
  }

  lemma {:induction false} NothingToStrip(s: string)
    requires '\n' !in s && '\r' !in s
    ensures RStrip(s) == s
  {
  }

  /** Up to the limit the raw line is all there is, if no newline came. */
  lemma RawCut(b: seq<byte>)
    requires NEWLINE !in b
    ensures RawLine(b) == if |b| <= MAX_RESPONSE_LINE_BYTES + 1 then b else b[..MAX_RESPONSE_LINE_BYTES + 1]
  {
    assert IndexOf(b, NEWLINE) == |b|;
  }

  /** At the end of the connection 1048576 bytes are accepted as a line, and one more is too many. */
  lemma ReplyLimit(b: seq<byte>)
    requires NEWLINE !in b && b != []
    ensures |b| > 1_048_576 ==> ReadReply(b).0 == Err(BadLine)
    ensures |b| <= 1_048_576 && Decode(b).Some? ==> ReadReply(b) == (Ok(RStrip(Decode(b).value)), [])
    ensures Decode(b).None? ==> ReadReply(b).0 == Err(BadLine) || |b| > 1_048_576
  {
    RawCut(b);
  }

  lemma WholeCut(line: string, b: seq<byte>, k: nat)
    requires b <= Encode(line) && k <= |line| && |Encode(line[..k])| == |b|
    ensures Decode(b) == Some(line[..k])
  {
    PrefixCode(line[..k], line);
    assert b == Encode(line)[..|b|] == Encode(line[..k]);
    DecodeEncode(line[..k]);
  }

  lemma TrimCut(line: string, b: seq<byte>)
    requires '\n' !in line && '\r' !in line && b <= Encode(line) && |b| <= MAX_RESPONSE_LINE_BYTES
    ensures Trim(b).Ok? ==> Trim(b).value <= line && Encode(Trim(b).value) == b
    ensures Trim(b).Err? ==> Trim(b).error == BadLine && forall k :: 0 <= k <= |line| ==> |Encode(line[..k])| != |b|
  {
    if Decode(b).Some? {
      var s := Decode(b).value;
      EncodeDecode(b);
      PrefixCode(s, line);
      NothingToStrip(s);
    } else {
      forall k | 0 <= k <= |line| ensures |Encode(line[..k])| != |b| {
        if |Encode(line[..k])| == |b| { WholeCut(line, b, k); }
      }
    }
  }

  /**
   What is read when the connection ends in the middle of a line, or just before its newline. Between
   two characters it is the beginning of the line, taken for a whole one; inside a character
   the line is refused; and with nothing read the end of the connection is noticed.
   */
  lemma CutLine(line: string, m: nat)
    requires '\n' !in line && '\r' !in line && m < |Line(line)|
    ensures var r := ReadReply(Line(line)[..m]).0;
      if m == 0 then r == Err(Ended)
      else if m > MAX_RESPONSE_LINE_BYTES then r == Err(BadLine)
      else if r.Ok? then r.value <= line && |Encode(r.value)| == m
      else r == Err(BadLine) && forall k :: 0 <= k <= |line| ==> |Encode(line[..k])| != m
  {
    var cut := Line(line)[..m];
    assert cut == Encode(line)[..m];
    NewlineOnly(line);
    if m > 0 {
      RawCut(cut);
      if m <= MAX_RESPONSE_LINE_BYTES { TrimCut(line, cut); }
    }
  }

  lemma SameLength(s: string, k: nat, j: nat)
    requires k <= |s| && j <= |s| && |Encode(s[..k])| == |Encode(s[..j])|
    ensures k == j
  {
    if k < j { PrefixLength(s, k, j); } else if j < k { PrefixLength(s, j, k); }
  }

  lemma DigitEnds(digits: string)
    requires AllDigits(digits)
    ensures '\n' !in digits && '\r' !in digits && Ascii(digits)
  {
    forall i | 0 <= i < |digits| ensures digits[i] != '\n' && digits[i] != '\r' { assert IsDigit(digits[i]); }
  }

  /** Among the digits every byte ends a character. */
  lemma CutPoint(head: string, digits: string, j: nat)
    requires AllDigits(digits) && j <= |digits|
    ensures (head + digits)[..|head| + j] == head + digits[..j] && |Encode(head + digits[..j])| == |Encode(head)| + j
  {
    EncodeConcat(head, digits[..j]);
    ByteLength(digits[..j]);
  }

  /** So a beginning that takes j bytes more than the head has j digits. */
  lemma ReadAmongDigits(head: string, digits: string, j: nat, s: string)
    requires AllDigits(digits) && j <= |digits| && s <= head + digits && |Encode(s)| == |Encode(head)| + j
    ensures s == head + digits[..j]
  {
    CutPoint(head, digits, j);
    assert s == (head + digits)[..|s|];
    SameLength(head + digits, |head| + j, |s|);
  }

  lemma NotLonger(head: string, digits: string, s: string)
    requires s <= head + digits && |Encode(s)| <= |Encode(head)|
    ensures s <= head
  {
    var line := head + digits;
    assert line[..|head|] == head && line[..|s|] == s;
    if |s| > |head| {
      PrefixLength(line, |head|, |s|);
    }
  }

  /** What CutLine says of a line that ends in digits. */
  lemma CutDigits(head: string, digits: string, m: nat)
    requires '\n' !in head && '\r' !in head && AllDigits(digits) && |Encode(head)| < m <= |Encode(head)| + |digits|
    requires m <= MAX_RESPONSE_LINE_BYTES && m < |Line(head + digits)|
    ensures ReadReply(Line(head + digits)[..m]).0 == Ok(head + digits[..m - |Encode(head)|])
  {
    DigitEnds(digits);
    CutLine(head + digits, m);
    CutPoint(head, digits, m - |Encode(head)|);
    var r := ReadReply(Line(head + digits)[..m]).0;
    assert r.Ok?;
    ReadAmongDigits(head, digits, m - |Encode(head)|, r.value);
  }

  lemma CutFront(head: string, digits: string, m: nat)
    requires '\n' !in head && '\r' !in head && AllDigits(digits) && 0 < m < |Line(head + digits)|
    requires m <= |Encode(head)| || m > MAX_RESPONSE_LINE_BYTES
    ensures var r := ReadReply(Line(head + digits)[..m]).0; r.Ok? ==> r.value <= head
  {
    DigitEnds(digits);
    CutLine(head + digits, m);
    var r := ReadReply(Line(head + digits)[..m]).0;
    if r.Ok? { NotLonger(head, digits, r.value); }
  }

  lemma DigitBytes(head: string, digits: string)
    requires AllDigits(digits)
    ensures |Line(head + digits)| == |Encode(head)| + |digits| + 1
  {
    EncodeConcat(head, digits);
    DigitEnds(digits);
    ByteLength(digits);
  }

  // ----- a number cut off

  lemma {:induction false} ValuePrefix(s: string, k: nat)
    requires AllDigits(s) && 0 < k < |s|
    ensures Value(s[..k]) <= Value(s) / 10
    decreases |s|
  {
    var front := s[..|s| - 1];
    assert Value(s) / 10 == Value(front);
    if k == |front| {
      assert s[..k] == front;
    } else {
      ValuePrefix(front, k);
      assert front[..k] == s[..k];
    }
  }

  lemma {:induction false} ValuePositive(s: string)
    requires AllDigits(s) && s != "" && s[0] != '0'
    ensures Value(s) >= 1
  {
    if |s| > 1 {
      ValuePositive(s[..|s| - 1]);
    } else {
      assert Value(s[..0]) == 0;
    }
  }

  /** A proper beginning of a printed number is a smaller positive number. */
  lemma CutNumber(n: nat, digits: string)
    requires n <= Session.MAX_PROTOCOL_SECONDS && digits != "" && digits < PrintInt(n)
    ensures AllDigits(digits) && ParseInt(digits) == Some(Value(digits)) && 1 <= Value(digits) <= n / 10
  {
    var number := PrintInt(n);
    PrintValue(n);
    assert digits == number[..|digits|] && digits[0] == number[0];
    ValuePrefix(number, |digits|);
    ValuePositive(digits);
    assert Pow10(10) == 10_000_000_000;
    PrintLength(n, 10);
    ParseDigits(digits);
  }

  /** The line of a grant up to and including the space before the lease. */
  function Head(status: string, token: string): string { status + " " + token + " " }

  lemma CutInNumber(status: string, token: string, lease: nat, digits: string)
    requires status != "" && NoSpace(status) && token != "" && NoSpace(token)
    requires lease <= Session.MAX_PROTOCOL_SECONDS && digits != "" && digits < PrintInt(lease)
    ensures var r := DecodeTokenLease(Head(status, token) + digits, status);
      r.Ok? && r.value.0 == token && 1 <= r.value.1 < lease
  {
    CutNumber(lease, digits);
    ThreeWords(status, token, digits);
    DecodeExact(Head(status, token) + digits, status, token, Value(digits));
  }

  /** Two words at most, with a space behind the second one or not. */
  lemma FewWords(status: string, piece: string)
    requires status != "" && NoSpace(status) && NoSpace(piece)
    ensures |Words(status + (" " + piece))| < 3
  {
    if piece == "" {
      NoWords(" " + piece);
      ConsWord(status, " " + piece);
    } else {
      TwoWords(status, piece);
    }
  }

  lemma FewWordsSpaced(status: string, piece: string)
    requires status != "" && NoSpace(status) && NoSpace(piece)
    ensures |Words(status + (" " + piece + " "))| < 3
  {
    if piece == "" {
      NoWords(" " + piece + " ");
    } else {
      NoWords(" ");
      ConsWord(piece, " ");
    }
    ConsWord(status, " " + piece + " ");
  }

  /** Before the number there are not enough words. */
  lemma CutInHead(status: string, token: string, s: string)
    requires status != "" && NoSpace(status) && NoSpace(token) && s <= Head(status, token) && |s| > |status|
    ensures DecodeTokenLease(s, status).Err?
  {
    var head := Head(status, token);
    if s == head {
      assert s == status + (" " + token + " ");
      FewWordsSpaced(status, token);
    } else {
      var piece := token[..|s| - |status| - 1];
      assert s == status + (" " + piece);
      FewWords(status, piece);
    }
  }

  lemma NoLineEnds(s: string)
    requires NoSpace(s)
    ensures '\n' !in s && '\r' !in s
  {
    forall i | 0 <= i < |s| ensures s[i] != '\n' && s[i] != '\r' { assert !IsSpace(s[i]); }
  }

  lemma HeadEnds(status: string, token: string)
    requires NoSpace(status) && NoSpace(token)
    ensures '\n' !in Head(status, token) && '\r' !in Head(status, token)
  {
    NoLineEnds(status);
    NoLineEnds(token);
  }

  /** A grant line of the given status that ends after m bytes: what comes through, as seen by the two decoders behind it. */
  lemma CutGrant(status: string, token: string, lease: nat, m: nat)
    requires status != "" && NoSpace(status) && token != "" && NoSpace(token) && 1 <= lease <= Session.MAX_PROTOCOL_SECONDS
    requires 0 < m < |Line(PrintGrant(status, token, lease))|
    ensures var r := ReadReply(Line(PrintGrant(status, token, lease))[..m]).0;
      if |Encode(Head(status, token))| < m <= MAX_RESPONSE_LINE_BYTES then
        && r.Ok? && Head(status, token) <= r.value && DecodeTokenLease(r.value, status).Ok?
        && var grant := DecodeTokenLease(r.value, status).value;
           grant.0 == token && 1 <= grant.1 <= lease && (grant.1 == lease <==> m == |Encode(PrintGrant(status, token, lease))|)
      else r.Ok? ==> r.value <= Head(status, token)
  {
    var head, number := Head(status, token), PrintInt(lease);
    PrintValue(lease);
    HeadEnds(status, token);
    assert PrintGrant(status, token, lease) == head + number;
    DigitBytes(head, number);
    if !(|Encode(head)| < m <= MAX_RESPONSE_LINE_BYTES) {
      CutFront(head, number, m);
    } else {
      CutDigits(head, number, m);
      var digits := number[..m - |Encode(head)|];
      if digits == number {
        DecodePrinted(status, token, lease);
      } else {
        CutInNumber(status, token, lease, digits);
      }
    }
  }

  lemma WordInFront(status: string, token: string, s: string)
    requires Head(status, token) <= s
    ensures status + " " <= s
  {
    assert Head(status, token) == (status + " ") + (token + " ");
  }

  lemma NotYetGranted(token: string, s: string)
    requires NoSpace(token) && s <= Head("ok", token)
    ensures ParseGrant(s).Err?
  {
    GrantPath(s);
    if "ok " <= s { CutInHead("ok", token, s); }
  }

  /**
   The end of the connection makes readline return what came so far. Of all beginnings of the bytes
   of a grant line exactly those that reach into the number are taken for a grant, of the same
   token: for less than the granted time, unless only the newline is missing.
   */
  lemma TruncatedGrant(token: string, lease: nat, m: nat)
    requires token != "" && NoSpace(token) && 1 <= lease <= Session.MAX_PROTOCOL_SECONDS
    requires m < |Line(PrintGrant("ok", token, lease))|
    ensures var r := ReadReply(Line(PrintGrant("ok", token, lease))[..m]).0;
      && (r.Ok? && ParseGrant(r.value).Ok? <==> |Encode(Head("ok", token))| < m <= MAX_RESPONSE_LINE_BYTES)
      && (r.Ok? && ParseGrant(r.value).Ok? ==>
            && ParseGrant(r.value).value.0 == token && 1 <= ParseGrant(r.value).value.1 <= lease
            && (ParseGrant(r.value).value.1 == lease <==> m == |Encode(PrintGrant("ok", token, lease))|))
  {
    if m > 0 {
      var r := ReadReply(Line(PrintGrant("ok", token, lease))[..m]).0;
      CutGrant("ok", token, lease, m);
      if |Encode(Head("ok", token))| < m <= MAX_RESPONSE_LINE_BYTES {
        WordInFront("ok", token, r.value);
        GrantPath(r.value);
      } else if r.Ok? {
        NotYetGranted(token, r.value);
      }
    }
  }

  lemma AcquiredPath(s: string)
    requires "acquired " <= s
    ensures ParseEnqueue(s).Ok? <==> DecodeTokenLease(s, "acquired").Ok?
    ensures ParseEnqueue(s).Ok? ==>
      var grant := DecodeTokenLease(s, "acquired").value; ParseEnqueue(s).value == Acquired(grant.0, grant.1)
  {
    assert s[0] == 'a';
  }

  lemma NotYetAcquired(token: string, s: string)
    requires NoSpace(token) && s <= Head("acquired", token)
    ensures ParseEnqueue(s).Err?
  {
    if "acquired " <= s {
      CutInHead("acquired", token, s);
      AcquiredPath(s);
    } else if s != "" {
      assert s[0] == 'a';
    }
  }

  /** The same for the answer to an enqueue. */
  lemma TruncatedAcquired(token: string, lease: nat, m: nat)
    requires token != "" && NoSpace(token) && 1 <= lease <= Session.MAX_PROTOCOL_SECONDS
    requires m < |Line(PrintGrant("acquired", token, lease))|
    ensures var r := ReadReply(Line(PrintGrant("acquired", token, lease))[..m]).0;
      && (r.Ok? && ParseEnqueue(r.value).Ok? <==> |Encode(Head("acquired", token))| < m <= MAX_RESPONSE_LINE_BYTES)
      && (r.Ok? && ParseEnqueue(r.value).Ok? ==>
            && ParseEnqueue(r.value).value.Acquired?
            && ParseEnqueue(r.value).value.token == token && 1 <= ParseEnqueue(r.value).value.lease <= lease
            && (ParseEnqueue(r.value).value.lease == lease <==> m == |Encode(PrintGrant("acquired", token, lease))|))
  {
    if m > 0 {
      var r := ReadReply(Line(PrintGrant("acquired", token, lease))[..m]).0;
      CutGrant("acquired", token, lease, m);
      if |Encode(Head("acquired", token))| < m <= MAX_RESPONSE_LINE_BYTES {
        WordInFront("acquired", token, r.value);
        AcquiredPath(r.value);
      } else if r.Ok? {
        NotYetAcquired(token, r.value);
      }
    }
  }

  /** The answer to a renew begins with this. */
  const RENEWED := "ok "

  lemma RenewedPath(s: string)
    requires s <= RENEWED
    ensures ParseRenew(s).Err?
  {
    if s == RENEWED {
      assert s == "ok" + " ";
      NoWords(" ");
      ConsWord("ok", " ");
    } else if s == "ok" {
      LastWord(s);
    }
  }

  lemma CutRenewed(remaining: nat, digits: string)
    requires remaining <= Session.MAX_PROTOCOL_SECONDS && digits != "" && digits < PrintInt(remaining)
    ensures ParseRenew(RENEWED + digits).Ok? && 1 <= ParseRenew(RENEWED + digits).value < remaining
  {
    CutNumber(remaining, digits);
    assert RENEWED + digits == "ok" + (" " + digits);
    TwoWords("ok", digits);
    RenewPath(RENEWED + digits, digits);
  }

  /** A cut behind the first digit. */
  lemma RenewedCutIn(remaining: nat, m: nat)
    requires remaining <= Session.MAX_PROTOCOL_SECONDS && |RENEWED| < m <= |RENEWED| + |PrintInt(remaining)|
    requires m < |Line(RENEWED + PrintInt(remaining))|
    ensures var r := ReadReply(Line(RENEWED + PrintInt(remaining))[..m]).0;
      && r.Ok? && ParseRenew(r.value).Ok? && 0 <= ParseRenew(r.value).value <= remaining
      && (ParseRenew(r.value).value == remaining <==> m == |RENEWED| + |PrintInt(remaining)|)
  {
    var number := PrintInt(remaining);
    RenewedBytes(remaining);
    CutDigits(RENEWED, number, m);
    var digits := number[..m - |RENEWED|];
    if digits == number {
      RenewRoundTrip(remaining);
    } else {
      CutRenewed(remaining, digits);
    }
  }

  lemma RenewedBytes(remaining: nat)
    requires remaining <= Session.MAX_PROTOCOL_SECONDS
    ensures AllDigits(PrintInt(remaining)) && |PrintInt(remaining)| <= 10 && PrintRenew(remaining) == RENEWED + PrintInt(remaining)
    ensures |Line(PrintRenew(remaining))| == |RENEWED| + |PrintInt(remaining)| + 1
    ensures |Encode(RENEWED)| == |RENEWED| && |Encode(PrintRenew(remaining))| == |RENEWED| + |PrintInt(remaining)|
  {
    PrintValue(remaining);
    assert Pow10(10) == 10_000_000_000;
    PrintLength(remaining, 10);
    DigitBytes(RENEWED, PrintInt(remaining));
    ByteLength(RENEWED);
  }

  /** A cut before it. */
  lemma RenewedCutFront(remaining: nat, m: nat)
    requires remaining <= Session.MAX_PROTOCOL_SECONDS && 0 < m <= |RENEWED| && m < |Line(RENEWED + PrintInt(remaining))|
    ensures var r := ReadReply(Line(RENEWED + PrintInt(remaining))[..m]).0; r.Ok? ==> ParseRenew(r.value).Err?
  {
    RenewedBytes(remaining);
    CutFront(RENEWED, PrintInt(remaining), m);
    var r := ReadReply(Line(RENEWED + PrintInt(remaining))[..m]).0;
    if r.Ok? { RenewedPath(r.value); }
  }

  /** The same for the answer to a renew: a cut inside the number reports a shorter lease. */
  lemma TruncatedRenewed(remaining: nat, m: nat)
    requires remaining <= Session.MAX_PROTOCOL_SECONDS && m < |Line(PrintRenew(remaining))|
    ensures var r := ReadReply(Line(PrintRenew(remaining))[..m]).0;
      && (r.Ok? && ParseRenew(r.value).Ok? <==> m > |RENEWED|)
      && (r.Ok? && ParseRenew(r.value).Ok? ==>
            && 0 <= ParseRenew(r.value).value <= remaining
            && (ParseRenew(r.value).value == remaining <==> m == |Encode(PrintRenew(remaining))|))
  {
    RenewedBytes(remaining);
    if m > |RENEWED| {
      RenewedCutIn(remaining, m);
    } else if m > 0 {
      RenewedCutFront(remaining, m);
    }
  }
}
