/** The response side of _protocol.py: status codes, decoders, and the words of a line. */
module Responses {
  import opened Basics
  import opened Decimal
  import Session

  /** The sentinel classes of errors.py; DflockdError is the fallback. */
  datatype Sentinel =
    | AuthError | MaxLocks | MaxWaiters | LimitMismatch | NotQueued | AlreadyQueued | LeaseExpired | Draining
    | DflockdError

  /** What a decoder raises: DflockdTimeoutError, a sentinel, RuntimeError, or PermissionError. */
  datatype Error = TimedOut | Status(sentinel: Sentinel) | BadResponse | Denied

  // ----- str.split()

  /** str.isspace for one character. */
  predicate IsSpace(c: char) {
    var n := c as int;
    || 0x09 <= n <= 0x0D || 0x1C <= n <= 0x20 || n == 0x85 || n == 0xA0 || n == 0x1680
    || 0x2000 <= n <= 0x200A || n == 0x2028 || n == 0x2029 || n == 0x202F || n == 0x205F || n == 0x3000
  }

  /** The characters that split() splits at, one by one. */
  lemma Spaces(c: char)
    ensures IsSpace(c) <==> (c as int) in {
      9, 10, 11, 12, 13, 28, 29, 30, 31, 32, 133, 160, 5760, 8192, 8193, 8194, 8195, 8196, 8197, 8198, 8199, 8200, 8201, 8202,
      8232, 8233, 8239, 8287, 12288 }
  {
  }

  predicate AllSpace(s: string) { forall i :: 0 <= i < |s| ==> IsSpace(s[i]) }

  predicate NoSpace(s: string) { forall i :: 0 <= i < |s| ==> !IsSpace(s[i]) }

  /** The length of the longest prefix of whitespace, or of anything else. */
  function Span(s: string, space: bool): (r: nat)
    ensures r <= |s| && (r < |s| ==> IsSpace(s[r]) != space)
  {
    if s == [] || IsSpace(s[0]) != space then 0 else 1 + Span(s[1..], space)
  }

  lemma {:induction false} SpanAll(s: string, space: bool)
    ensures forall i :: 0 <= i < Span(s, space) ==> IsSpace(s[i]) == space
  {
    if s != [] && IsSpace(s[0]) == space {
      SpanAll(s[1..], space);
      forall i | 0 <= i < Span(s, space) ensures IsSpace(s[i]) == space { assert i > 0 ==> s[i] == s[1..][i - 1]; }
    }
  }

  /** s.split(). */
  function Words(s: string): seq<string>
    decreases |s|
  {
    var i := Span(s, true);
    if i == |s| then []
    else
      var j := i + Span(s[i..], false);
      [s[i..j]] + Words(s[j..])
  }

  // ----- status codes

  function Code(x: Sentinel): string
    requires !x.DflockdError?
  {
    match x
    case AuthError => "error_auth"
    case MaxLocks => "error_max_locks"
    case MaxWaiters => "error_max_waiters"
    case LimitMismatch => "error_limit_mismatch"
    case NotQueued => "error_not_enqueued"
    case AlreadyQueued => "error_already_enqueued"
    case LeaseExpired => "error_lease_expired"
    case Draining => "error_draining"
  }

  /** status_error. */
  function StatusError(resp: string): Sentinel {
    if resp == "error_auth" then AuthError
    else if resp == "error_max_locks" then MaxLocks
    else if resp == "error_max_waiters" then MaxWaiters
    else if resp == "error_limit_mismatch" then LimitMismatch
    else if resp == "error_not_enqueued" then NotQueued
    else if resp == "error_already_enqueued" then AlreadyQueued
    else if resp == "error_lease_expired" then LeaseExpired
    else if resp == "error_draining" then Draining
    else DflockdError
  }

  // ----- decoders

  predicate StartsWith(s: string, prefix: string) { prefix <= s }

  /** _parse_int_field. */
  function ParseIntField(raw: string, least: int): Result<int, Error> {
    match ParseInt(raw)
    case None => Err(BadResponse)
    case Some(value) => if value < least || value > Session.MAX_PROTOCOL_SECONDS then Err(BadResponse) else Ok(value)
  }

  /** _decode_token_lease. */
  function DecodeTokenLease(resp: string, status: string): Result<(string, int), Error> {
    var parts := Words(resp);
    if |parts| != 3 || parts[0] != status then Err(BadResponse)
    else
      var lease :- ParseIntField(parts[2], 1);
      Ok((parts[1], lease))
  }

  /** parse_grant_response. */
  function ParseGrant(resp: string): Result<(string, int), Error> {
    if resp == "timeout" then Err(TimedOut)
    else if !StartsWith(resp, "ok ") then Err(Status(StatusError(resp)))
    else DecodeTokenLease(resp, "ok")
  }

  /** parse_renew_response. */
  function ParseRenew(resp: string): Result<int, Error> {
    if !StartsWith(resp, "ok") then Err(Status(StatusError(resp)))
    else
      var parts := Words(resp);
      if |parts| != 2 || parts[0] != "ok" then Err(BadResponse) else ParseIntField(parts[1], 0)
  }

  datatype Enqueued = Acquired(token: string, lease: int) | Queued

  /** parse_enqueue_response. */
  function ParseEnqueue(resp: string): Result<Enqueued, Error> {
    if resp == "queued" then Ok(Queued)
    else if StartsWith(resp, "acquired ") then
      var grant :- DecodeTokenLease(resp, "acquired");
      Ok(Acquired(grant.0, grant.1))
    else Err(Status(StatusError(resp)))
  }

  /** parse_release_response. */
  function ParseRelease(resp: string): Result<(), Error> {
    if resp != "ok" then Err(Status(StatusError(resp))) else Ok(())
  }

  /** parse_auth_response. */
  function ParseAuth(resp: string): Result<(), Error> {
    if resp == "ok" then Ok(())
    else if resp == "error_draining" then Err(Status(Draining))
    else Err(Denied)
  }

  /** What the lifecycle machines see of a reply line to a frame. */
  function ReplyTo(f: Session.Frame, resp: string): Session.Reply {
    match f
    case Acquire => GrantReply(ParseGrant(resp))
    case Wait => GrantReply(ParseGrant(resp))
    case Enqueue =>
      (match ParseEnqueue(resp)
       case Ok(Acquired(token, lease)) => Session.Granted(token, lease)
       case Ok(Queued) => Session.Queued
       case Err(_) => Session.Refused)
    case Renew(_) => if ParseRenew(resp).Ok? then Session.Renewed(ParseRenew(resp).value) else Session.Refused
    case Release(_) => if ParseRelease(resp).Ok? then Session.Done else Session.Refused
    case Auth => if ParseAuth(resp).Ok? then Session.Done else Session.Refused
  }

  function GrantReply(r: Result<(string, int), Error>): Session.Reply {
    match r
    case Ok(grant) => Session.Granted(grant.0, grant.1)
    case Err(e) => if e.TimedOut? then Session.TimedOut else Session.Refused
  }

  // ----- what the decoders accept

  /** s is the words, apart by whitespace, with any whitespace around them. */
  ghost predicate Spells(s: string, words: seq<string>)
    decreases |words|
  {
    if words == [] then AllSpace(s)
    else exists i, j :: SpellsFirst(s, words[0], i, j) && Spells(s[j..], words[1..])
  }

  /** s[i..j] is the first word of s. */
  predicate SpellsFirst(s: string, word: string, i: int, j: int) {
    0 <= i < j <= |s| && AllSpace(s[..i]) && s[i..j] == word && NoSpace(word) && (j == |s| || IsSpace(s[j]))
  }

  lemma {:induction false} SpanIs(s: string, space: bool, k: nat)
    requires k <= |s| && (forall i :: 0 <= i < k ==> IsSpace(s[i]) == space) && (k < |s| ==> IsSpace(s[k]) != space)
    ensures Span(s, space) == k
  {
    if k > 0 { SpanIs(s[1..], space, k - 1); }
  }

  lemma SpaceSpan(s: string, word: string, i: int, j: int)
    requires SpellsFirst(s, word, i, j)
    ensures Span(s, true) == i
  {
    forall k | 0 <= k < i ensures IsSpace(s[k]) { assert s[..i][k] == s[k]; }
    assert word[0] == s[i];
    SpanIs(s, true, i);
  }

  lemma WordSpan(s: string, word: string, i: int, j: int)
    requires SpellsFirst(s, word, i, j)
    ensures Span(s[i..], false) == j - i
  {
    forall k | 0 <= k < j - i ensures !IsSpace(s[i..][k]) { assert word[k] == s[i..][k]; }
    SpanIs(s[i..], false, j - i);
  }

  lemma FirstWord(s: string, word: string, i: int, j: int)
    requires SpellsFirst(s, word, i, j)
    ensures Words(s) == [word] + Words(s[j..])
  {
    SpaceSpan(s, word, i, j);
    WordSpan(s, word, i, j);
  }

  /** Where the word that begins at i ends. */
  lemma WordEnd(s: string, i: nat) returns (j: nat)
    requires i < |s|
    ensures j == i + Span(s[i..], false) && i <= j <= |s|
    ensures forall k :: i <= k < j ==> !IsSpace(s[k])
    ensures j < |s| ==> IsSpace(s[j])
  {
    j := i + Span(s[i..], false);
    SpanAll(s[i..], false);
    forall k | i <= k < j ensures !IsSpace(s[k]) { assert s[k] == s[i..][k - i]; }
    assert j < |s| ==> s[j] == s[i..][j - i];
  }

  lemma FirstSegment(s: string, i: nat, j: nat)
    requires i < j <= |s| && (j < |s| ==> IsSpace(s[j]))
    requires forall k :: 0 <= k < i ==> IsSpace(s[k])
    requires forall k :: i <= k < j ==> !IsSpace(s[k])
    ensures SpellsFirst(s, s[i..j], i, j)
  {
    forall k | 0 <= k < j - i ensures !IsSpace(s[i..j][k]) { assert s[i..j][k] == s[i + k]; }
  }

  /** The first word that split() finds. */
  lemma FirstFound(s: string) returns (i: nat, j: nat)
    requires Words(s) != []
    ensures SpellsFirst(s, Words(s)[0], i, j) && Words(s[j..]) == Words(s)[1..]
  {
    i := Span(s, true);
    SpanAll(s, true);
    j := WordEnd(s, i);
    var words := [s[i..j]] + Words(s[j..]);
    assert Words(s) == words && words[1..] == Words(s[j..]);
    FirstSegment(s, i, j);
  }

  lemma {:induction false} FoundIsSpelled(s: string)
    ensures Spells(s, Words(s))
    decreases |s|
  {
    if Words(s) == [] {
      SpanAll(s, true);
      assert AllSpace(s);
    } else {
      var i, j := FirstFound(s);
      FoundIsSpelled(s[j..]);
    }
  }

  lemma Unspell(s: string, words: seq<string>) returns (i: int, j: int)
    requires words != [] && Spells(s, words)
    ensures SpellsFirst(s, words[0], i, j) && Spells(s[j..], words[1..])
  {
    i, j :| SpellsFirst(s, words[0], i, j) && Spells(s[j..], words[1..]);
  }

  lemma NoWords(s: string)
    requires AllSpace(s)
    ensures Words(s) == []
  {
    SpanIs(s, true, |s|);
  }

  lemma HeadAndTail(words: seq<string>)
    requires words != []
    ensures [words[0]] + words[1..] == words
  {
  }

  lemma {:induction false} SpelledIsFound(s: string, words: seq<string>)
    requires Spells(s, words)
    ensures Words(s) == words
    decreases |words|
  {
    if words == [] {
      NoWords(s);
    } else {
      var i, j := Unspell(s, words);
      var rest := s[j..];
      SpelledIsFound(rest, words[1..]);
      FirstWord(s, words[0], i, j);
      HeadAndTail(words);
    }
  }

  /** split() returns exactly the words that the text spells. */
  lemma WordsSpell(s: string, words: seq<string>)
    ensures Words(s) == words <==> Spells(s, words)
  {
    FoundIsSpelled(s);
    if Spells(s, words) { SpelledIsFound(s, words); }
  }

  /** Where parse_grant_response goes. */
  lemma GrantPath(resp: string)
    ensures "ok " <= resp ==> ParseGrant(resp) == DecodeTokenLease(resp, "ok")
    ensures !("ok " <= resp) ==> ParseGrant(resp) == Err(if resp == "timeout" then TimedOut else Status(StatusError(resp)))
  {
    if "ok " <= resp { assert resp[0] == 'o'; }
  }

  /** A status word, a token and a number. */
  lemma DecodeExact(resp: string, status: string, token: string, lease: int)
    ensures DecodeTokenLease(resp, status) == Ok((token, lease)) <==>
      1 <= lease <= Session.MAX_PROTOCOL_SECONDS
      && exists number :: Words(resp) == [status, token, number] && ParseInt(number) == Some(lease)
  {
    if DecodeTokenLease(resp, status) == Ok((token, lease)) {
      assert Words(resp) == [status, token, Words(resp)[2]];
    }
  }

  /**
   The texts that decode as a grant: the words ok, token and a number of seconds in range, the first one
   followed by a space.
   */
  lemma GrantGrammar(resp: string, token: string, lease: int)
    ensures ParseGrant(resp) == Ok((token, lease)) <==>
      "ok " <= resp && 1 <= lease <= Session.MAX_PROTOCOL_SECONDS
      && exists number :: Spells(resp, ["ok", token, number]) && ParseInt(number) == Some(lease)
  {
    GrantPath(resp);
    DecodeExact(resp, "ok", token, lease);
    forall number ensures Words(resp) == ["ok", token, number] <==> Spells(resp, ["ok", token, number]) {
      WordsSpell(resp, ["ok", token, number]);
    }
  }

  /** The texts that decode as the answer to enqueue. */
  lemma EnqueueGrammar(resp: string, token: string, lease: int)
    ensures ParseEnqueue(resp) == Ok(Queued) <==> resp == "queued"
    ensures ParseEnqueue(resp) == Ok(Acquired(token, lease)) <==>
      "acquired " <= resp && 1 <= lease <= Session.MAX_PROTOCOL_SECONDS
      && exists number :: Spells(resp, ["acquired", token, number]) && ParseInt(number) == Some(lease)
    ensures !("acquired " <= resp) && resp != "queued" ==> ParseEnqueue(resp) == Err(Status(StatusError(resp)))
  {
    if "acquired " <= resp { assert resp[0] == 'a'; }
    DecodeExact(resp, "acquired", token, lease);
    forall number ensures Words(resp) == ["acquired", token, number] <==> Spells(resp, ["acquired", token, number]) {
      WordsSpell(resp, ["acquired", token, number]);
    }
  }

  /** The texts that decode as the answer to a renew; zero seconds are allowed here. */
  lemma RenewGrammar(resp: string, remaining: int)
    ensures ParseRenew(resp) == Ok(remaining) <==>
      "ok" <= resp && 0 <= remaining <= Session.MAX_PROTOCOL_SECONDS
      && exists number :: Spells(resp, ["ok", number]) && ParseInt(number) == Some(remaining)
    ensures !("ok" <= resp) ==> ParseRenew(resp) == Err(Status(StatusError(resp)))
  {
    if ParseRenew(resp) == Ok(remaining) {
      assert Words(resp) == ["ok", Words(resp)[1]];
    }
    forall number ensures Words(resp) == ["ok", number] <==> Spells(resp, ["ok", number]) {
      WordsSpell(resp, ["ok", number]);
    }
  }

  /** Every line has one outcome: timeout, a status, a malformed grant or a grant with a token word and a lease in range. */
  lemma GrantOutcome(resp: string)
    ensures ParseGrant(resp) == Err(TimedOut) <==> resp == "timeout"
    ensures (exists x :: ParseGrant(resp) == Err(Status(x))) <==> resp != "timeout" && !("ok " <= resp)
    ensures ParseGrant(resp).Ok? ==>
      ParseGrant(resp).value.0 != "" && NoSpace(ParseGrant(resp).value.0) && 1 <= ParseGrant(resp).value.1 <= Session.MAX_PROTOCOL_SECONDS
    ensures ParseGrant(resp) != Err(Denied)
  {
    if resp != "timeout" && !("ok " <= resp) {
      assert ParseGrant(resp) == Err(Status(StatusError(resp)));
    }
    if ParseGrant(resp).Ok? {
      var words := Words(resp);
      WordsSpell(resp, words);
      WordOfSpelling(resp, words, 1);
    }
  }

  /** Every answer to an enqueue has one outcome: in line, a status, a malformed grant or a grant in range. */
  lemma EnqueueOutcome(resp: string)
    ensures ParseEnqueue(resp) == Ok(Queued) <==> resp == "queued"
    ensures (exists x :: ParseEnqueue(resp) == Err(Status(x))) <==> resp != "queued" && !("acquired " <= resp)
    ensures ParseEnqueue(resp).Ok? && ParseEnqueue(resp).value.Acquired? ==>
      && "acquired " <= resp && ParseEnqueue(resp).value.token != "" && NoSpace(ParseEnqueue(resp).value.token)
      && 1 <= ParseEnqueue(resp).value.lease <= Session.MAX_PROTOCOL_SECONDS
    ensures ParseEnqueue(resp) != Err(TimedOut) && ParseEnqueue(resp) != Err(Denied)
  {
    EnqueueGrammar(resp, "", 0);
    if "acquired " <= resp {
      assert resp[0] == 'a';
      if ParseEnqueue(resp).Ok? {
        WordsSpell(resp, Words(resp));
        WordOfSpelling(resp, Words(resp), 1);
      }
    } else if resp != "queued" {
      assert ParseEnqueue(resp) == Err(Status(StatusError(resp)));
    }
  }

  /**
   Every answer to a renew has one outcome: a status, a malformed answer or seconds in range; a lease that
   ran out is a status.
   */
  lemma RenewOutcome(resp: string)
    ensures (exists x :: ParseRenew(resp) == Err(Status(x))) <==> !("ok" <= resp)
    ensures ParseRenew(resp).Ok? ==> "ok" <= resp && 0 <= ParseRenew(resp).value <= Session.MAX_PROTOCOL_SECONDS
    ensures ParseRenew(resp) == Err(Status(LeaseExpired)) <==> resp == Code(LeaseExpired)
    ensures ParseRenew(resp) != Err(TimedOut) && ParseRenew(resp) != Err(Denied)
  {
    RenewGrammar(resp, 0);
    StatusExact(resp, LeaseExpired);
    if !("ok" <= resp) {
      assert ParseRenew(resp) == Err(Status(StatusError(resp)));
    }
    if resp == Code(LeaseExpired) { assert resp[0] == 'e'; }
  }

  lemma {:induction false} WordOfSpelling(s: string, words: seq<string>, k: nat)
    requires Spells(s, words) && k < |words|
    ensures words[k] != "" && NoSpace(words[k])
    decreases k
  {
    var i, j := Unspell(s, words);
    if k > 0 { WordOfSpelling(s[j..], words[1..], k - 1); }
  }

  /** The eight codes are told apart, and nothing else is mapped to their classes. */
  lemma StatusExact(resp: string, x: Sentinel)
    requires !x.DflockdError?
    ensures StatusError(resp) == x <==> resp == Code(x)
  {
  }

  /** The eight codes, letter by letter. */
  lemma StatusCodes()
    ensures StatusError("error_auth") == AuthError && StatusError("error_draining") == Draining
    ensures StatusError("error_max_locks") == MaxLocks && StatusError("error_max_waiters") == MaxWaiters
    ensures StatusError("error_limit_mismatch") == LimitMismatch && StatusError("error_lease_expired") == LeaseExpired
    ensures StatusError("error_not_enqueued") == NotQueued && StatusError("error_already_enqueued") == AlreadyQueued
    ensures StatusError("error") == DflockdError && StatusError("timeout") == DflockdError && StatusError("") == DflockdError
  {
  }

  /** A release is confirmed by the line "ok" and by no other; any other line is the status whose code it is. */
  lemma ReleaseAnswer(resp: string, x: Sentinel)
    ensures ParseRelease(resp) == Ok(()) <==> resp == "ok"
    ensures !x.DflockdError? ==> (ParseRelease(resp) == Err(Status(x)) <==> resp == Code(x))
    ensures resp != "ok" ==> ParseRelease(resp) == Err(Status(StatusError(resp)))
  {
    if !x.DflockdError? { StatusExact(resp, x); }
  }

  /** Auth passes with the line "ok" only; a draining server is told apart, and everything else is a denial. */
  lemma AuthAnswer(resp: string)
    ensures ParseAuth(resp) == Ok(()) <==> resp == "ok"
    ensures ParseAuth(resp) == Err(Status(Draining)) <==> resp == "error_draining"
    ensures resp != "ok" && resp != "error_draining" ==> ParseAuth(resp) == Err(Denied)
  {
  }

  /** A grant line of this status. */
  ghost predicate GrantLine(resp: string, status: string, token: string, lease: int) {
    && status + " " <= resp && 1 <= lease <= Session.MAX_PROTOCOL_SECONDS
    && exists number :: Spells(resp, [status, token, number]) && ParseInt(number) == Some(lease)
  }

  /** What a reply line means to acquire and wait. */
  lemma GrantReplies(f: Session.Frame, resp: string, token: string, lease: int)
    requires f.Acquire? || f.Wait?
    ensures ReplyTo(f, resp) == Session.TimedOut <==> resp == "timeout"
    ensures ReplyTo(f, resp) == Session.Granted(token, lease) <==> GrantLine(resp, "ok", token, lease)
    ensures ReplyTo(f, resp).TimedOut? || ReplyTo(f, resp).Granted? || ReplyTo(f, resp).Refused?
  {
    GrantGrammar(resp, token, lease);
    GrantOutcome(resp);
    assert "ok" + " " == "ok ";
  }

  /** What a reply line means to enqueue. */
  lemma EnqueueReplies(resp: string, token: string, lease: int)
    ensures ReplyTo(Session.Enqueue, resp) == Session.Queued <==> resp == "queued"
    ensures ReplyTo(Session.Enqueue, resp) == Session.Granted(token, lease) <==> GrantLine(resp, "acquired", token, lease)
    ensures var r := ReplyTo(Session.Enqueue, resp); r.Queued? || r.Granted? || r.Refused?
  {
    EnqueueGrammar(resp, token, lease);
    assert "acquired" + " " == "acquired ";
  }

  /** What a reply line means to a renew, a release and an auth. */
  lemma OtherReplies(resp: string, t: string, remaining: int)
    ensures ReplyTo(Session.Renew(t), resp) == Session.Renewed(remaining) <==>
      "ok" <= resp && 0 <= remaining <= Session.MAX_PROTOCOL_SECONDS
      && exists number :: Spells(resp, ["ok", number]) && ParseInt(number) == Some(remaining)
    ensures ReplyTo(Session.Renew(t), resp).Renewed? || ReplyTo(Session.Renew(t), resp).Refused?
    ensures ReplyTo(Session.Release(t), resp) == if resp == "ok" then Session.Done else Session.Refused
    ensures ReplyTo(Session.Auth, resp) == if resp == "ok" then Session.Done else Session.Refused
  {
    RenewGrammar(resp, remaining);
  }

  /** Whatever the server answers, the machines see seconds in range. */
  lemma RepliesInBounds(f: Session.Frame, resp: string)
    ensures Session.ReplyInBounds(ReplyTo(f, resp))
  {
  }

  // ----- printing, as the server does, and parsing back

  function PrintGrant(status: string, token: string, lease: nat): string { status + " " + token + " " + PrintInt(lease) }

  lemma PrintedWords(status: string, token: string, lease: nat)
    requires status != "" && NoSpace(status) && token != "" && NoSpace(token)
    ensures Words(PrintGrant(status, token, lease)) == [status, token, PrintInt(lease)]
  {
    PrintValue(lease);
    ThreeWords(status, token, PrintInt(lease));
  }

  lemma LastWord(s: string)
    requires s != "" && NoSpace(s)
    ensures Words(s) == [s] && Words(" " + s) == [s]
  {
    assert s[|s|..] == "" && (" " + s)[1 + |s|..] == "" && Words("") == [];
    assert s[0..|s|] == s && (" " + s)[1..1 + |s|] == s;
    FirstWord(s, s, 0, |s|);
    FirstWord(" " + s, s, 1, 1 + |s|);
  }

  /** A word in front, with or without a space before it. */
  lemma ConsWord(word: string, rest: string)
    requires word != "" && NoSpace(word) && rest != "" && rest[0] == ' '
    ensures Words(word + rest) == [word] + Words(rest) && Words(" " + word + rest) == [word] + Words(rest)
  {
    var s, t := word + rest, " " + word + rest;
    assert s[0..|word|] == word && s[|word|..] == rest;
    FirstWord(s, word, 0, |word|);
    assert t[1..1 + |word|] == word && t[1 + |word|..] == rest;
    FirstWord(t, word, 1, 1 + |word|);
  }

  lemma Regroup(a: string, b: string, c: string)
    ensures a + " " + b + " " + c == a + (" " + b + (" " + c))
  {
  }

  lemma ThreeWords(a: string, b: string, c: string)
    requires a != "" && NoSpace(a) && b != "" && NoSpace(b) && c != "" && NoSpace(c)
    ensures Words(a + " " + b + " " + c) == [a, b, c]
  {
    TwoWords(b, c);
    ConsWord(a, " " + b + (" " + c));
    Regroup(a, b, c);
  }

  lemma TwoWords(b: string, c: string)
    requires b != "" && NoSpace(b) && c != "" && NoSpace(c)
    ensures Words(b + (" " + c)) == [b, c] && Words(" " + b + (" " + c)) == [b, c]
  {
    LastWord(c);
    ConsWord(b, " " + c);
  }

  lemma ParseSeconds(n: nat)
    requires n <= Session.MAX_PROTOCOL_SECONDS
    ensures ParseInt(PrintInt(n)) == Some(n)
  {
    assert Pow10(10) == 10_000_000_000;
    PrintLength(n, 10);
    PrintValue(n);
    ParseDigits(PrintInt(n));
  }

  lemma DecodePrinted(status: string, token: string, lease: nat)
    requires status != "" && NoSpace(status) && token != "" && NoSpace(token) && 1 <= lease <= Session.MAX_PROTOCOL_SECONDS
    ensures DecodeTokenLease(PrintGrant(status, token, lease), status) == Ok((token, lease))
  {
    PrintedWords(status, token, lease);
    ParseSeconds(lease);
    DecodeExact(PrintGrant(status, token, lease), status, token, lease);
  }

  /** A printed grant is parsed back, by acquire and wait, and by enqueue with its own status word. */
  lemma GrantRoundTrip(token: string, lease: nat)
    requires token != "" && NoSpace(token) && 1 <= lease <= Session.MAX_PROTOCOL_SECONDS
    ensures ParseGrant(PrintGrant("ok", token, lease)) == Ok((token, lease))
  {
    DecodePrinted("ok", token, lease);
    var line := PrintGrant("ok", token, lease);
    assert line[..3] == "ok ";
    GrantPath(line);
  }

  lemma AcquiredRoundTrip(token: string, lease: nat)
    requires token != "" && NoSpace(token) && 1 <= lease <= Session.MAX_PROTOCOL_SECONDS
    ensures ParseEnqueue(PrintGrant("acquired", token, lease)) == Ok(Acquired(token, lease))
  {
    DecodePrinted("acquired", token, lease);
    var line := PrintGrant("acquired", token, lease);
    assert line[..9] == "acquired ";
    assert line[0] == 'a';
  }

  function PrintRenew(remaining: nat): string { "ok" + (" " + PrintInt(remaining)) }

  lemma RenewPath(resp: string, number: string)
    requires Words(resp) == ["ok", number] && "ok" <= resp
    ensures ParseRenew(resp) == ParseIntField(number, 0)
  {
  }

  lemma RenewRoundTrip(remaining: nat)
    requires remaining <= Session.MAX_PROTOCOL_SECONDS
    ensures ParseRenew(PrintRenew(remaining)) == Ok(remaining)
  {
    var number := PrintInt(remaining);
    PrintValue(remaining);
    TwoWords("ok", number);
    ParseSeconds(remaining);
    RenewPath(PrintRenew(remaining), number);
  }

  /** Printing what was parsed, and parsing it again, changes nothing, however the first text was spelled. */
  lemma GrantStable(resp: string)
    requires ParseGrant(resp).Ok?
    ensures ParseGrant(PrintGrant("ok", ParseGrant(resp).value.0, ParseGrant(resp).value.1)) == ParseGrant(resp)
  {
    GrantOutcome(resp);
    GrantRoundTrip(ParseGrant(resp).value.0, ParseGrant(resp).value.1);
  }

  lemma RenewStable(resp: string)
    requires ParseRenew(resp).Ok?
    ensures ParseRenew(PrintRenew(ParseRenew(resp).value)) == ParseRenew(resp)
  {
    RenewRoundTrip(ParseRenew(resp).value);
  }

  lemma EnqueueStable(resp: string)
    requires ParseEnqueue(resp).Ok? && ParseEnqueue(resp).value.Acquired?
    ensures ParseEnqueue(PrintGrant("acquired", ParseEnqueue(resp).value.token, ParseEnqueue(resp).value.lease)) == ParseEnqueue(resp)
  {
    EnqueueOutcome(resp);
    AcquiredRoundTrip(ParseEnqueue(resp).value.token, ParseEnqueue(resp).value.lease);
  }
}
