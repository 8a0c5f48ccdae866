/** The request side of _protocol.py: validators, argument builders and the line encoder. */
module Requests {
  import opened Basics
  import opened Decimal
  import opened Utf8
  import Session

  const MAX_LINE_BYTES := 256
  const MAX_AUTH_TOKEN_BYTES := 64 * 1024

  /** The exception of every validator here; Python's type checks are not part of this model. */
  datatype Error = ValueError

  type Checked = Result<(), Error>

  function Require(b: bool): Checked { if b then Ok(()) else Err(ValueError) }

  // ----- validators

  function ByteLen(s: string): nat { |Encode(s)| }

  predicate NoNewlines(s: string) { '\n' !in s && '\r' !in s }

  predicate HasWhitespace(s: string) { ' ' in s || '\t' in s || '\n' in s || '\r' in s }

  function CheckNoNewlines(value: string): Checked { Require(NoNewlines(value)) }

  function ValidateProtocolLine(value: string, allowEmpty: bool): Checked {
    var _ :- Require(allowEmpty || value != "");
    var _ :- CheckNoNewlines(value);
    Require(ByteLen(value) <= MAX_LINE_BYTES)
  }

  /** validate_key and validate_token, which make the same checks. */
  function ValidateWord(value: string): Checked {
    var _ :- ValidateProtocolLine(value, false);
    Require(!HasWhitespace(value))
  }

  function ValidateSecondsRange(value: int, least: int): Checked {
    var _ :- Require(value >= least);
    Require(value <= Session.MAX_PROTOCOL_SECONDS)
  }

  function ValidateLeaseTtl(value: Option<int>): Checked {
    if value.None? then Ok(()) else ValidateSecondsRange(value.value, 1)
  }

  function ValidatePrefix(prefix: string): Checked { Require(prefix == "" || prefix == "s") }

  function ValidateLimit(limit: int): Checked { Require(limit > 0) }

  function ValidatePrefixLimit(prefix: string, limit: Option<int>): Checked {
    var _ :- ValidatePrefix(prefix);
    if prefix == "s" then
      var _ :- Require(limit.Some?);
      ValidateLimit(limit.value)
    else Require(limit.None?)
  }

  function ValidateAuthToken(token: string): Checked {
    var _ :- CheckNoNewlines(token);
    Require(ByteLen(token) <= MAX_AUTH_TOKEN_BYTES)
  }

  // ----- arguments

  function Join(parts: seq<string>): string {
    if parts == [] then "" else if |parts| == 1 then parts[0] else parts[0] + " " + Join(parts[1..])
  }

  function Present(value: Option<int>): seq<string> {
    if value.Some? then [PrintInt(value.value)] else []
  }

  function AcquireParts(timeout: int, limit: Option<int>, lease: Option<int>): seq<string> {
    [PrintInt(timeout)] + Present(limit) + Present(lease)
  }

  function EnqueueParts(limit: Option<int>, lease: Option<int>): seq<string> { Present(limit) + Present(lease) }

  function RenewArg(token: string, lease: Option<int>): string {
    if lease.None? then token else token + " " + PrintInt(lease.value)
  }

  /** The list that a builder fills. */
  class Parts {
    var items: seq<string>

    constructor (first: seq<string>)
      ensures items == first
    {
      items := first;
    }

    method AppendOptionalInt(value: Option<int>)
      modifies this
      ensures items == old(items) + Present(value)
    {
      if value.Some? {
        items := items + [PrintInt(value.value)];
      }
    }
  }

  method BuildAcquireArg(timeout: int, limit: Option<int>, lease: Option<int>) returns (arg: string)
    ensures arg == Join(AcquireParts(timeout, limit, lease))
  {
    var parts := new Parts([PrintInt(timeout)]);
    parts.AppendOptionalInt(limit);
    parts.AppendOptionalInt(lease);
    arg := Join(parts.items);
  }

  method BuildEnqueueArg(limit: Option<int>, lease: Option<int>) returns (arg: string)
    ensures arg == Join(EnqueueParts(limit, lease))
  {
    var parts := new Parts([]);
    parts.AppendOptionalInt(limit);
    parts.AppendOptionalInt(lease);
    assert [] + Present(limit) + Present(lease) == EnqueueParts(limit, lease);
    arg := Join(parts.items);
  }

  function MakeAcquireArg(timeout: int, limit: Option<int>, lease: Option<int>): Result<string, Error> {
    var _ :- ValidateSecondsRange(timeout, 0);
    var _ :- ValidateLeaseTtl(lease);
    var arg := Join(AcquireParts(timeout, limit, lease));
    var _ :- ValidateProtocolLine(arg, true);
    Ok(arg)
  }

  function MakeRenewArg(token: string, lease: Option<int>): Result<string, Error> {
    var _ :- ValidateWord(token);
    var _ :- ValidateLeaseTtl(lease);
    var arg := RenewArg(token, lease);
    var _ :- ValidateProtocolLine(arg, true);
    Ok(arg)
  }

  function MakeEnqueueArg(limit: Option<int>, lease: Option<int>): Result<string, Error> {
    var _ :- ValidateLeaseTtl(lease);
    var arg := Join(EnqueueParts(limit, lease));
    var _ :- ValidateProtocolLine(arg, true);
    Ok(arg)
  }

  function MakeWaitArg(timeout: int): Result<string, Error> {
    var _ :- ValidateSecondsRange(timeout, 0);
    var arg := PrintInt(timeout);
    var _ :- ValidateProtocolLine(arg, true);
    Ok(arg)
  }

  // ----- lines

  /** The text of a sequence of lines, each ended by a newline. */
  function Text(lines: seq<string>): string {
    if lines == [] then "" else lines[0] + "\n" + Text(lines[1..])
  }

  predicate AllLines(lines: seq<string>) { forall i :: 0 <= i < |lines| ==> NoNewlines(lines[i]) }

  /** encode_lines. */
  function EncodedLines(lines: seq<string>): Result<seq<byte>, Error> {
    if AllLines(lines) then Ok(Encode(Text(lines))) else Err(ValueError)
  }

  method EncodeLines(lines: seq<string>) returns (r: Result<seq<byte>, Error>)
    ensures r == EncodedLines(lines)
  {
    for i := 0 to |lines|
      invariant forall j :: 0 <= j < i ==> NoNewlines(lines[j])
    {
      if CheckNoNewlines(lines[i]).IsFailure() {
        return Err(ValueError);
      }
    }
    r := Ok(Encode(Text(lines)));
  }

  // ----- requests, as the command functions of _sync.py and _async.py send them

  datatype Request =
    | Acquire(prefix: string, key: string, timeout: int, limit: Option<int>, lease: Option<int>)
    | Release(prefix: string, key: string, token: string)
    | Renew(prefix: string, key: string, token: string, lease: Option<int>)
    | Enqueue(prefix: string, key: string, limit: Option<int>, lease: Option<int>)
    | Wait(prefix: string, key: string, timeout: int)
    | Auth(token: string)
    | Stats

  /** The three lines of a request, or the exception of the first check that fails. */
  function Lines(q: Request): Result<seq<string>, Error> {
    match q
    case Acquire(prefix, key, timeout, limit, lease) =>
      var _ :- ValidatePrefixLimit(prefix, limit);
      var _ :- ValidateWord(key);
      var arg :- MakeAcquireArg(timeout, limit, lease);
      Ok([prefix + "l", key, arg])
    case Release(prefix, key, token) =>
      var _ :- ValidatePrefix(prefix);
      var _ :- ValidateWord(key);
      var _ :- ValidateWord(token);
      Ok([prefix + "r", key, token])
    case Renew(prefix, key, token, lease) =>
      var _ :- ValidatePrefix(prefix);
      var _ :- ValidateWord(key);
      var arg :- MakeRenewArg(token, lease);
      Ok([prefix + "n", key, arg])
    case Enqueue(prefix, key, limit, lease) =>
      var _ :- ValidatePrefixLimit(prefix, limit);
      var _ :- ValidateWord(key);
      var arg :- MakeEnqueueArg(limit, lease);
      Ok([prefix + "e", key, arg])
    case Wait(prefix, key, timeout) =>
      var _ :- ValidatePrefix(prefix);
      var _ :- ValidateWord(key);
      var arg :- MakeWaitArg(timeout);
      Ok([prefix + "w", key, arg])
    case Auth(token) =>
      var _ :- ValidateAuthToken(token);
      Ok(["auth", "_", token])
    case Stats => Ok(["stats", "_", "_"])
  }

  /** The bytes of a request. */
  function Frame(q: Request): Result<seq<byte>, Error> {
    var lines :- Lines(q);
    EncodedLines(lines)
  }

  // ----- the limits, in numbers

  /** Keys and tokens: at least one character, no blank, and 256 bytes at most; 257 are too many. */
  lemma WordLimits(s: string)
    ensures ValidateWord(s).Ok? <==> s != "" && |Encode(s)| <= 256 && forall c :: c in s ==> c !in " \t\n\r"
    ensures Ascii(s) && |s| == 257 ==> ValidateWord(s).Err?
    ensures Ascii(s) && |s| == 256 && (forall c :: c in s ==> c !in " \t\n\r") ==> ValidateWord(s).Ok?
  {
    ByteLength(s);
    var blanks := " \t\n\r";
    assert blanks[0] == ' ' && blanks[1] == '\t' && blanks[2] == '\n' && blanks[3] == '\r';
    assert HasWhitespace(s) <==> exists c :: c in s && c in blanks;
  }

  /** Auth tokens may be empty, and have 65536 bytes at most. */
  lemma AuthLimits(s: string)
    ensures ValidateAuthToken(s).Ok? <==> '\n' !in s && '\r' !in s && |Encode(s)| <= 65536
  {
  }

  /** Seconds: timeouts from 0, leases from 1, both to 9223372036; limits are positive, with prefix "s" and only there. */
  lemma NumberLimits(n: int, prefix: string, limit: Option<int>)
    ensures ValidateSecondsRange(n, 0).Ok? <==> 0 <= n <= 9_223_372_036
    ensures ValidateLeaseTtl(None).Ok? && (ValidateLeaseTtl(Some(n)).Ok? <==> 1 <= n <= 9_223_372_036)
    ensures ValidatePrefixLimit(prefix, limit).Ok? <==>
      (prefix == "" && limit == None) || (prefix == "s" && limit.Some? && limit.value >= 1)
  {
  }

  /** Arguments may be empty, and have 256 bytes at most. */
  lemma LineLimits(s: string)
    ensures ValidateProtocolLine(s, true).Ok? <==> '\n' !in s && '\r' !in s && |Encode(s)| <= 256
  {
  }
}
