/**
 A reference reader for the stream of requests, independent of the client's builders: bytes
 are cut at 0x0A, three lines make a request, and the arguments are read by position.
 Writing and reading undo each other, in both directions.
 */
module RequestStream {
  import opened Basics
  import opened Decimal
  import opened Utf8
  import opened Requests
  import Session

  // ----- what a request must satisfy, said once for each field

  predicate WordOk(s: string) { s != "" && !HasWhitespace(s) && ByteLen(s) <= MAX_LINE_BYTES }

  predicate SecondsOk(n: int, least: int) { least <= n <= Session.MAX_PROTOCOL_SECONDS }

  predicate LeaseOk(lease: Option<int>) { lease.Some? ==> SecondsOk(lease.value, 1) }

  predicate PrefixOk(prefix: string) { prefix == "" || prefix == "s" }

  /** A semaphore request names its limit, a lock request has none. */
  predicate LimitOk(prefix: string, limit: Option<int>) {
    (prefix == "" && limit.None?) || (prefix == "s" && limit.Some? && limit.value > 0)
  }

  function Name(q: Request): string {
    match q
    case Acquire(prefix, _, _, _, _) => prefix + "l"
    case Release(prefix, _, _) => prefix + "r"
    case Renew(prefix, _, _, _) => prefix + "n"
    case Enqueue(prefix, _, _, _) => prefix + "e"
    case Wait(prefix, _, _) => prefix + "w"
    case Auth(_) => "auth"
    case Stats => "stats"
  }

  function Key(q: Request): string { if q.Auth? || q.Stats? then "_" else q.key }

  function Arg(q: Request): string {
    match q
    case Acquire(_, _, timeout, limit, lease) => Join(AcquireParts(timeout, limit, lease))
    case Release(_, _, token) => token
    case Renew(_, _, token, lease) => RenewArg(token, lease)
    case Enqueue(_, _, limit, lease) => Join(EnqueueParts(limit, lease))
    case Wait(_, _, timeout) => PrintInt(timeout)
    case Auth(token) => token
    case Stats => "_"
  }

  predicate Valid(q: Request) {
    match q
    case Acquire(prefix, key, timeout, limit, lease) =>
      LimitOk(prefix, limit) && WordOk(key) && SecondsOk(timeout, 0) && LeaseOk(lease) && |Arg(q)| <= MAX_LINE_BYTES
    case Release(prefix, key, token) => PrefixOk(prefix) && WordOk(key) && WordOk(token)
    case Renew(prefix, key, token, lease) =>
      PrefixOk(prefix) && WordOk(key) && WordOk(token) && LeaseOk(lease) && ByteLen(Arg(q)) <= MAX_LINE_BYTES
    case Enqueue(prefix, key, limit, lease) =>
      LimitOk(prefix, limit) && WordOk(key) && LeaseOk(lease) && |Arg(q)| <= MAX_LINE_BYTES
    case Wait(prefix, key, timeout) => PrefixOk(prefix) && WordOk(key) && SecondsOk(timeout, 0)
    case Auth(token) => NoNewlines(token) && ByteLen(token) <= MAX_AUTH_TOKEN_BYTES
    case Stats => true
  }

  // ----- numbers and fields

  lemma PrintIntDigits(n: int)
    requires n >= 0
    ensures PrintInt(n) != "" && AllDigits(PrintInt(n)) && ' ' !in PrintInt(n)
    ensures Ascii(PrintInt(n)) && NoNewlines(PrintInt(n))
  {
    PrintValue(n);
  }

  /** A canonical natural number: digits without a leading zero. */
  function ReadNumber(s: string): Option<nat> {
    if s != "" && AllDigits(s) && (s[0] != '0' || |s| == 1) then Some(Value(s)) else None
  }

  lemma ReadPrinted(n: nat)
    ensures ReadNumber(PrintInt(n)) == Some(n)
  {
    PrintValue(n);
    if n == 0 { assert Print(0) == "0"; }
  }

  lemma {:induction false} PrintRead(s: string)
    requires ReadNumber(s).Some?
    ensures PrintInt(ReadNumber(s).value) == s
    ensures s[0] != '0' ==> ReadNumber(s).value > 0
  {
    var front := s[..|s| - 1];
    if |s| == 1 {
      assert Value(front) == 0;
      assert s == [Digit(Value(s))];
    } else {
      assert front[0] == s[0];
      PrintRead(front);
      assert Value(s) / 10 == Value(front) && Digit(Value(s) % 10) == s[|s| - 1];
      assert s == front + [s[|s| - 1]];
    }
  }

  /** The first position of x, or the length. */
  function IndexOf<T(==)>(s: seq<T>, x: T): (r: nat)
    ensures r <= |s| && x !in s[..r] && (r < |s| ==> s[r] == x)
  {
    if s == [] || s[0] == x then 0
    else
      var k := IndexOf(s[1..], x);
      assert s[..1 + k] == [s[0]] + s[1..][..k];
      1 + k
  }

  lemma {:induction false} IndexOfIn<T>(a: seq<T>, x: T, rest: seq<T>)
    requires x !in a
    ensures IndexOf(a + [x] + rest, x) == |a|
  {
    if a != [] {
      assert (a + [x] + rest)[1..] == a[1..] + [x] + rest;
      IndexOfIn(a[1..], x, rest);
    }
  }

  function Split(s: string): (r: seq<string>)
    ensures r != []
  {
    var k := IndexOf(s, ' ');
    if k == |s| then [s] else [s[..k]] + Split(s[k + 1..])
  }

  /** The fields of an argument line. */
  function Fields(s: string): seq<string> { if s == "" then [] else Split(s) }

  predicate Plain(parts: seq<string>) { forall i :: 0 <= i < |parts| ==> parts[i] != "" && ' ' !in parts[i] }

  lemma SplitFirst(part: string, rest: string)
    requires ' ' !in part
    ensures Split(part + [' '] + rest) == [part] + Split(rest)
  {
    var s := part + [' '] + rest;
    IndexOfIn(part, ' ', rest);
    assert s[..|part|] == part && s[|part| + 1..] == rest;
  }

  lemma {:induction false} SplitJoin(parts: seq<string>)
    requires parts != [] && Plain(parts)
    ensures Split(Join(parts)) == parts && Join(parts) != ""
  {
    if |parts| > 1 {
      SplitJoin(parts[1..]);
      assert Join(parts) == parts[0] + [' '] + Join(parts[1..]);
      SplitFirst(parts[0], Join(parts[1..]));
      assert parts == [parts[0]] + parts[1..];
    } else {
      assert IndexOf(parts[0], ' ') == |parts[0]|;
    }
  }

  lemma FieldsJoin(parts: seq<string>)
    requires Plain(parts)
    ensures Fields(Join(parts)) == parts
  {
    if parts != [] { SplitJoin(parts); }
  }

  lemma {:induction false} JoinSplit(s: string)
    ensures Join(Split(s)) == s
    decreases |s|
  {
    var k := IndexOf(s, ' ');
    if k < |s| {
      JoinSplit(s[k + 1..]);
      assert s == s[..k] + " " + s[k + 1..];
    }
  }

  lemma JoinFields(s: string)
    ensures Join(Fields(s)) == s
  {
    JoinSplit(s);
  }

  function ReadNumbers(fields: seq<string>): Option<seq<nat>> {
    if fields == [] then Some([])
    else
      var n, rest := ReadNumber(fields[0]), ReadNumbers(fields[1..]);
      if n.None? || rest.None? then None else Some([n.value] + rest.value)
  }

  function PrintAll(numbers: seq<nat>): seq<string> {
    if numbers == [] then [] else [PrintInt(numbers[0])] + PrintAll(numbers[1..])
  }

  lemma {:induction false} ReadPrintAll(numbers: seq<nat>)
    ensures ReadNumbers(PrintAll(numbers)) == Some(numbers) && Plain(PrintAll(numbers))
  {
    if numbers != [] {
      ReadPrinted(numbers[0]);
      PrintIntDigits(numbers[0]);
      ReadPrintAll(numbers[1..]);
      assert numbers == [numbers[0]] + numbers[1..];
    }
  }

  lemma {:induction false} PrintReadAll(fields: seq<string>)
    requires ReadNumbers(fields).Some?
    ensures PrintAll(ReadNumbers(fields).value) == fields
  {
    if fields != [] {
      PrintRead(fields[0]);
      PrintReadAll(fields[1..]);
    }
  }

  /** The numbers on an argument line. */
  function Numbers(arg: string): Option<seq<nat>> { ReadNumbers(Fields(arg)) }

  lemma NumbersOf(numbers: seq<nat>)
    ensures Numbers(Join(PrintAll(numbers))) == Some(numbers)
  {
    ReadPrintAll(numbers);
    FieldsJoin(PrintAll(numbers));
  }

  lemma NumbersBack(arg: string)
    requires Numbers(arg).Some?
    ensures Join(PrintAll(Numbers(arg).value)) == arg
  {
    PrintReadAll(Fields(arg));
    JoinFields(arg);
  }

  // ----- the reader of one request

  function Opt(numbers: seq<nat>, k: nat): Option<int> { if k < |numbers| then Some(numbers[k]) else None }

  /** By position: timeout, then the limit of a semaphore, then the lease. */
  function ReadAcquire(prefix: string, key: string, n: seq<nat>): Option<Request> {
    if prefix == "" && 1 <= |n| <= 2 then Some(Acquire(prefix, key, n[0], None, Opt(n, 1)))
    else if prefix == "s" && 2 <= |n| <= 3 then Some(Acquire(prefix, key, n[0], Some(n[1]), Opt(n, 2)))
    else None
  }

  function ReadEnqueue(prefix: string, key: string, n: seq<nat>): Option<Request> {
    if prefix == "" && |n| <= 1 then Some(Enqueue(prefix, key, None, Opt(n, 0)))
    else if prefix == "s" && 1 <= |n| <= 2 then Some(Enqueue(prefix, key, Some(n[0]), Opt(n, 1)))
    else None
  }

  /** A token, then possibly the lease. */
  function ReadRenew(prefix: string, key: string, arg: string): Option<Request> {
    var k := IndexOf(arg, ' ');
    if k == |arg| then Some(Renew(prefix, key, arg, None))
    else
      var n := ReadNumber(arg[k + 1..]);
      if n.None? then None else Some(Renew(prefix, key, arg[..k], Some(n.value)))
  }

  function ReadKeyed(prefix: string, op: char, key: string, arg: string): Option<Request> {
    var n := Numbers(arg);
    if op == 'l' && n.Some? then ReadAcquire(prefix, key, n.value)
    else if op == 'e' && n.Some? then ReadEnqueue(prefix, key, n.value)
    else if op == 'w' && n.Some? && |n.value| == 1 then Some(Wait(prefix, key, n.value[0]))
    else if op == 'n' then ReadRenew(prefix, key, arg)
    else if op == 'r' then Some(Release(prefix, key, arg))
    else None
  }

  function ReadLoose(name: string, key: string, arg: string): Option<Request> {
    if name == "auth" && key == "_" then Some(Auth(arg))
    else if name == "stats" && key == "_" && arg == "_" then Some(Stats)
    else if |name| == 1 then ReadKeyed("", name[0], key, arg)
    else if |name| == 2 && name[0] == 's' then ReadKeyed("s", name[1], key, arg)
    else None
  }

  /** The request that three lines spell, if they spell a valid one. */
  function ReadRequest(name: string, key: string, arg: string): Option<Request> {
    var q := ReadLoose(name, key, arg);
    if q.Some? && Valid(q.value) then q else None
  }

  /** The numbers of an acquire or enqueue argument. */
  function Given(value: Option<int>): seq<nat>
    requires value.Some? ==> value.value >= 0
  {
    if value.Some? then [value.value] else []
  }

  lemma PrintOne(m: nat)
    ensures PrintAll([m]) == [PrintInt(m)]
  {
    assert [m][1..] == [] && PrintAll([]) == [];
  }

  lemma PrintTwo(m: nat, n: nat)
    ensures PrintAll([m, n]) == [PrintInt(m), PrintInt(n)]
  {
    PrintOne(n);
    assert [m, n][1..] == [n];
  }

  lemma EnqueuePartsPrinted(limit: Option<int>, lease: Option<int>)
    requires limit.Some? ==> limit.value >= 0
    requires lease.Some? ==> lease.value >= 0
    ensures EnqueueParts(limit, lease) == PrintAll(Given(limit) + Given(lease))
  {
    if limit.Some? && lease.Some? {
      PrintTwo(limit.value, lease.value);
      assert Given(limit) + Given(lease) == [limit.value, lease.value];
    } else if limit.Some? {
      PrintOne(limit.value);
      assert Given(limit) + Given(lease) == [limit.value];
    } else if lease.Some? {
      PrintOne(lease.value);
      assert Given(limit) + Given(lease) == [lease.value];
    }
  }

  lemma AcquirePartsPrinted(timeout: nat, limit: Option<int>, lease: Option<int>)
    requires limit.Some? ==> limit.value >= 0
    requires lease.Some? ==> lease.value >= 0
    ensures AcquireParts(timeout, limit, lease) == PrintAll([timeout] + Given(limit) + Given(lease))
    ensures EnqueueParts(limit, lease) == PrintAll(Given(limit) + Given(lease))
  {
    EnqueuePartsPrinted(limit, lease);
    var all := [timeout] + Given(limit) + Given(lease);
    assert all[1..] == Given(limit) + Given(lease);
    assert AcquireParts(timeout, limit, lease) == [PrintInt(timeout)] + EnqueueParts(limit, lease);
  }

  lemma AcquireWritten(q: Request)
    requires Valid(q) && q.Acquire?
    ensures ReadKeyed(q.prefix, 'l', q.key, Arg(q)) == Some(q)
  {
    AcquirePartsPrinted(q.timeout, q.limit, q.lease);
    NumbersOf([q.timeout] + Given(q.limit) + Given(q.lease));
  }

  lemma EnqueueWritten(q: Request)
    requires Valid(q) && q.Enqueue?
    ensures ReadKeyed(q.prefix, 'e', q.key, Arg(q)) == Some(q)
  {
    AcquirePartsPrinted(0, q.limit, q.lease);
    NumbersOf(Given(q.limit) + Given(q.lease));
  }

  lemma WaitWritten(q: Request)
    requires Valid(q) && q.Wait?
    ensures ReadKeyed(q.prefix, 'w', q.key, Arg(q)) == Some(q)
  {
    NumbersOf([q.timeout]);
    assert Join(PrintAll([q.timeout])) == PrintInt(q.timeout);
  }

  lemma RenewWritten(q: Request)
    requires Valid(q) && q.Renew?
    ensures ReadRenew(q.prefix, q.key, Arg(q)) == Some(q)
  {
    if q.lease.Some? {
      var tail := PrintInt(q.lease.value);
      assert Arg(q) == q.token + [' '] + tail;
      IndexOfIn(q.token, ' ', tail);
      ReadPrinted(q.lease.value);
      assert Arg(q)[..|q.token|] == q.token && Arg(q)[|q.token| + 1..] == tail;
    } else {
      assert IndexOf(q.token, ' ') == |q.token|;
    }
  }

  lemma NameRead(prefix: string, op: char, key: string, arg: string)
    requires PrefixOk(prefix)
    ensures ReadLoose(prefix + [op], key, arg) == ReadKeyed(prefix, op, key, arg)
  {
  }

  /** Reading a written request gives it back: the prefix settles what the second number is. */
  lemma ReadWritten(q: Request)
    requires Valid(q)
    ensures ReadRequest(Name(q), Key(q), Arg(q)) == Some(q)
  {
    match q
    case Acquire(prefix, key, _, _, _) =>
      AcquireWritten(q);
      NameRead(prefix, 'l', key, Arg(q));
    case Enqueue(prefix, key, _, _) =>
      EnqueueWritten(q);
      NameRead(prefix, 'e', key, Arg(q));
    case Wait(prefix, key, _) =>
      WaitWritten(q);
      NameRead(prefix, 'w', key, Arg(q));
    case Renew(prefix, key, _, _) =>
      RenewWritten(q);
      NameRead(prefix, 'n', key, Arg(q));
    case Release(prefix, key, _) => NameRead(prefix, 'r', key, Arg(q));
    case Auth(_) =>
    case Stats =>
  }

  lemma AcquireRead(prefix: string, key: string, arg: string)
    requires Numbers(arg).Some? && ReadAcquire(prefix, key, Numbers(arg).value).Some?
    ensures Arg(ReadAcquire(prefix, key, Numbers(arg).value).value) == arg
  {
    var q := ReadAcquire(prefix, key, Numbers(arg).value).value;
    AcquirePartsPrinted(q.timeout, q.limit, q.lease);
    NumbersBack(arg);
    assert [q.timeout] + Given(q.limit) + Given(q.lease) == Numbers(arg).value;
  }

  lemma EnqueueRead(prefix: string, key: string, arg: string)
    requires Numbers(arg).Some? && ReadEnqueue(prefix, key, Numbers(arg).value).Some?
    ensures Arg(ReadEnqueue(prefix, key, Numbers(arg).value).value) == arg
  {
    var q := ReadEnqueue(prefix, key, Numbers(arg).value).value;
    AcquirePartsPrinted(0, q.limit, q.lease);
    NumbersBack(arg);
    assert Given(q.limit) + Given(q.lease) == Numbers(arg).value;
  }

  lemma RenewRead(prefix: string, key: string, arg: string)
    requires ReadRenew(prefix, key, arg).Some?
    ensures Arg(ReadRenew(prefix, key, arg).value) == arg
  {
    var k := IndexOf(arg, ' ');
    if k < |arg| {
      PrintRead(arg[k + 1..]);
      CutAt(arg, k);
    }
  }

  lemma CutAt(s: string, k: nat)
    requires k < |s|
    ensures s == s[..k] + [s[k]] + s[k + 1..]
  {
  }

  lemma WaitRead(arg: string)
    requires Numbers(arg).Some? && |Numbers(arg).value| == 1
    ensures PrintInt(Numbers(arg).value[0]) == arg
  {
    NumbersBack(arg);
    var t := Numbers(arg).value[0];
    assert Numbers(arg).value == [t] && Join(PrintAll([t])) == PrintInt(t);
  }

  lemma KeyedRead(prefix: string, op: char, key: string, arg: string)
    requires ReadKeyed(prefix, op, key, arg).Some?
    ensures var q := ReadKeyed(prefix, op, key, arg).value; Name(q) == prefix + [op] && Key(q) == key && Arg(q) == arg
  {
    if op == 'l' {
      AcquireRead(prefix, key, arg);
    } else if op == 'e' {
      EnqueueRead(prefix, key, arg);
    } else if op == 'w' {
      WaitRead(arg);
    } else if op == 'n' {
      RenewRead(prefix, key, arg);
    }
  }

  predicate Named(name: string, key: string, arg: string) {
    (name == "auth" && key == "_") || (name == "stats" && key == "_" && arg == "_")
  }

  /** A name of one or two letters. */
  lemma NameSplit(name: string, key: string, arg: string) returns (prefix: string, op: char)
    requires ReadLoose(name, key, arg).Some? && !Named(name, key, arg)
    ensures name == prefix + [op] && ReadLoose(name, key, arg) == ReadKeyed(prefix, op, key, arg)
  {
    prefix, op := name[..|name| - 1], name[|name| - 1];
    assert |name| == 1 ==> prefix == "";
    assert |name| == 2 ==> prefix == "s";
  }

  lemma NamedRead(name: string, key: string, arg: string)
    requires Named(name, key, arg)
    ensures ReadLoose(name, key, arg).Some? && CommandOf(ReadLoose(name, key, arg).value) == Command(name, key, arg)
  {
    if name == "auth" {
      assert ReadLoose(name, key, arg) == Some(Auth(arg));
    } else {
      assert ReadLoose(name, key, arg) == Some(Stats);
    }
  }

  lemma LooseRead(name: string, key: string, arg: string)
    requires ReadLoose(name, key, arg).Some?
    ensures CommandOf(ReadLoose(name, key, arg).value) == Command(name, key, arg)
  {
    if Named(name, key, arg) {
      NamedRead(name, key, arg);
    } else {
      var prefix, op := NameSplit(name, key, arg);
      KeyedRead(prefix, op, key, arg);
    }
  }

  /** Only what writing produces is read as a request. */
  lemma WrittenRead(name: string, key: string, arg: string)
    requires ReadRequest(name, key, arg).Some?
    ensures var q := ReadRequest(name, key, arg).value; Valid(q) && CommandOf(q) == Command(name, key, arg)
  {
    LooseRead(name, key, arg);
  }

  // ----- the stream

  /** The text before the first newline byte, and the bytes behind it. */
  function ReadLine(b: seq<byte>): (r: Option<(string, seq<byte>)>)
    ensures r.Some? ==> |r.value.1| < |b|
  {
    var k := IndexOf(b, NEWLINE);
    if k == |b| || Decode(b[..k]).None? then None else Some((Decode(b[..k]).value, b[k + 1..]))
  }

  /** Three lines. */
  datatype Command = Command(name: string, key: string, arg: string)

  /** The first three lines, and the bytes behind them. */
  function ReadCommand(b: seq<byte>): (r: Option<(Command, seq<byte>)>)
    ensures r.Some? ==> |r.value.1| < |b|
  {
    var name := ReadLine(b);
    if name.None? then None
    else
      var key := ReadLine(name.value.1);
      if key.None? then None
      else
        var arg := ReadLine(key.value.1);
        if arg.None? then None else Some((Command(name.value.0, key.value.0, arg.value.0), arg.value.1))
  }

  /** Cut into commands, to the end of the stream. */
  function Cut(b: seq<byte>): (r: Option<seq<Command>>)
    decreases |b|
  {
    if b == [] then Some([])
    else
      var first := ReadCommand(b);
      if first.None? then None
      else
        var rest := Cut(first.value.1);
        if rest.None? then None else Some([first.value.0] + rest.value)
  }

  function ReadAll(cs: seq<Command>): Option<seq<Request>> {
    if cs == [] then Some([])
    else
      var q, rest := ReadRequest(cs[0].name, cs[0].key, cs[0].arg), ReadAll(cs[1..]);
      if q.None? || rest.None? then None else Some([q.value] + rest.value)
  }

  /** The requests on a stream of bytes. */
  function ReadStream(b: seq<byte>): Option<seq<Request>> {
    if Cut(b).None? then None else ReadAll(Cut(b).value)
  }

  /** What a client writes for a sequence of requests. */
  function Stream(qs: seq<Request>): seq<byte>
    requires forall q :: q in qs ==> Frame(q).Ok?
  {
    if qs == [] then [] else Frame(qs[0]).value + Stream(qs[1..])
  }

  lemma ReadEncodedLine(line: string, rest: seq<byte>)
    requires '\n' !in line
    ensures ReadLine(Encode(line + "\n") + rest) == Some((line, rest))
  {
    EncodedLine(line);
    NewlineOnly(line);
    DecodeEncode(line);
    var b := Encode(line) + [NEWLINE] + rest;
    assert Encode(line + "\n") + rest == b;
    IndexOfIn(Encode(line), NEWLINE, rest);
    assert b[..|Encode(line)|] == Encode(line) && b[|Encode(line)| + 1..] == rest;
  }

  lemma EncodedLine(line: string)
    ensures Encode(line + "\n") == Encode(line) + [NEWLINE]
  {
    EncodeConcat(line, "\n");
    assert Encode("\n") == [NEWLINE];
  }

  lemma EncodedReadLine(b: seq<byte>)
    requires ReadLine(b).Some?
    ensures b == Encode(ReadLine(b).value.0 + "\n") + ReadLine(b).value.1
  {
    var k := IndexOf(b, NEWLINE);
    EncodeDecode(b[..k]);
    EncodedLine(ReadLine(b).value.0);
    assert b == b[..k] + [NEWLINE] + b[k + 1..];
  }

  /** A command on the wire. */
  function Wire(c: Command): seq<byte> { Encode(c.name + "\n") + Encode(c.key + "\n") + Encode(c.arg + "\n") }

  function WireAll(cs: seq<Command>): seq<byte> { if cs == [] then [] else Wire(cs[0]) + WireAll(cs[1..]) }

  function CommandOf(q: Request): Command { Command(Name(q), Key(q), Arg(q)) }

  lemma ThreeLines(name: string, key: string, arg: string)
    ensures Encode(Text([name, key, arg])) == Wire(Command(name, key, arg))
  {
    assert Text([arg]) == arg + "\n";
    assert [key, arg][1..] == [arg] && [name, key, arg][1..] == [key, arg];
    assert Text([key, arg]) == (key + "\n") + Text([arg]);
    assert Text([name, key, arg]) == (name + "\n") + Text([key, arg]);
    EncodeConcat(key + "\n", Text([arg]));
    EncodeConcat(name + "\n", Text([key, arg]));
  }

  lemma {:induction false} JoinAscii(parts: seq<string>)
    requires forall i :: 0 <= i < |parts| ==> Ascii(parts[i]) && NoNewlines(parts[i])
    ensures Ascii(Join(parts)) && NoNewlines(Join(parts))
  {
    if |parts| > 1 { JoinAscii(parts[1..]); }
  }

  /** The three lines of a request, were it valid. */
  function LinesOf(q: Request): seq<string> { [Name(q), Key(q), Arg(q)] }

  lemma WordValid(s: string)
    ensures ValidateWord(s) == Require(WordOk(s))
  {
  }

  lemma LimitValid(prefix: string, limit: Option<int>)
    ensures ValidatePrefixLimit(prefix, limit) == Require(LimitOk(prefix, limit))
  {
  }

  predicate NotNegative(n: Option<int>) { n.Some? ==> n.value >= 0 }

  /** An argument of printed numbers is a line if it is short enough. */
  lemma NumbersLine(timeout: Option<nat>, limit: Option<int>, lease: Option<int>)
    requires NotNegative(limit) && NotNegative(lease)
    ensures var arg := Join(if timeout.Some? then AcquireParts(timeout.value, limit, lease) else EnqueueParts(limit, lease));
      ValidateProtocolLine(arg, true) == Require(|arg| <= MAX_LINE_BYTES) && NoNewlines(arg)
  {
    AcquirePartsPrinted(if timeout.Some? then timeout.value else 0, limit, lease);
    NumericArg((if timeout.Some? then [timeout.value] else []) + Given(limit) + Given(lease));
    assert [] + Given(limit) + Given(lease) == Given(limit) + Given(lease);
  }

  lemma AcquireAccepted(q: Request)
    requires q.Acquire?
    ensures Lines(q) == if Valid(q) then Ok(LinesOf(q)) else Err(ValueError)
  {
    WordValid(q.key);
    LimitValid(q.prefix, q.limit);
    if q.timeout >= 0 && NotNegative(q.limit) && NotNegative(q.lease) { NumbersLine(Some(q.timeout), q.limit, q.lease); }
  }

  lemma EnqueueAccepted(q: Request)
    requires q.Enqueue?
    ensures Lines(q) == if Valid(q) then Ok(LinesOf(q)) else Err(ValueError)
  {
    WordValid(q.key);
    LimitValid(q.prefix, q.limit);
    if NotNegative(q.limit) && NotNegative(q.lease) { NumbersLine(None, q.limit, q.lease); }
  }

  lemma WaitAccepted(q: Request)
    requires q.Wait?
    ensures Lines(q) == if Valid(q) then Ok(LinesOf(q)) else Err(ValueError)
  {
    if SecondsOk(q.timeout, 0) { ShortSeconds(q.timeout); }
  }

  lemma RenewAccepted(q: Request)
    requires q.Renew?
    ensures Lines(q) == if Valid(q) then Ok(LinesOf(q)) else Err(ValueError)
  {
    if q.lease.Some? && q.lease.value >= 0 { PrintIntDigits(q.lease.value); }
  }

  lemma LinesValid(q: Request)
    ensures Lines(q) == if Valid(q) then Ok(LinesOf(q)) else Err(ValueError)
  {
    match q
    case Acquire(_, _, _, _, _) => AcquireAccepted(q);
    case Enqueue(_, _, _, _) => EnqueueAccepted(q);
    case Wait(_, _, _) => WaitAccepted(q);
    case Renew(_, _, _, _) => RenewAccepted(q);
    case Release(_, _, _) =>
    case Auth(_) =>
    case Stats =>
  }

  lemma ArgNoNewlines(q: Request)
    requires Valid(q)
    ensures NoNewlines(Arg(q))
  {
    match q
    case Acquire(_, _, timeout, limit, lease) => NumbersLine(Some(timeout), limit, lease);
    case Enqueue(_, _, limit, lease) => NumbersLine(None, limit, lease);
    case Wait(_, _, timeout) => ShortSeconds(timeout);
    case Renew(_, _, _, lease) =>
      if lease.Some? { PrintIntDigits(lease.value); }
    case Release(_, _, _) =>
    case Auth(_) =>
    case Stats =>
  }

  lemma NoNewlinesWritten(q: Request)
    requires Valid(q)
    ensures NoNewlines(Name(q)) && NoNewlines(Key(q)) && NoNewlines(Arg(q))
  {
    ArgNoNewlines(q);
  }

  /** The checks of the client accept exactly the valid requests, and write their three lines. */
  lemma AcceptedIffValid(q: Request)
    ensures Frame(q).Ok? <==> Valid(q)
    ensures Valid(q) ==> Frame(q).value == Wire(CommandOf(q))
  {
    LinesValid(q);
    if Valid(q) {
      NoNewlinesWritten(q);
      ThreeLines(Name(q), Key(q), Arg(q));
    }
  }

  /** Optional numbers behind a text, each with a space before it. */
  function Behind(limit: Option<int>, lease: Option<int>): string {
    (if limit.Some? then " " + PrintInt(limit.value) else "") + (if lease.Some? then " " + PrintInt(lease.value) else "")
  }

  /** The text of a request, letter by letter. */
  function FrameText(q: Request): string {
    match q
    case Acquire(prefix, key, timeout, limit, lease) => prefix + "l" + "\n" + key + "\n" + (PrintInt(timeout) + Behind(limit, lease)) + "\n"
    case Release(prefix, key, token) => prefix + "r" + "\n" + key + "\n" + token + "\n"
    case Renew(prefix, key, token, lease) => prefix + "n" + "\n" + key + "\n" + (token + Behind(None, lease)) + "\n"
    case Enqueue(prefix, key, limit, lease) =>
      prefix + "e" + "\n" + key + "\n" + (if limit.None? && lease.None? then "" else Behind(limit, lease)[1..]) + "\n"
    case Wait(prefix, key, timeout) => prefix + "w" + "\n" + key + "\n" + PrintInt(timeout) + "\n"
    case Auth(token) => "auth" + "\n" + "_" + "\n" + token + "\n"
    case Stats => "stats" + "\n" + "_" + "\n" + "_" + "\n"
  }

  lemma AcquireArgText(timeout: int, limit: Option<int>, lease: Option<int>)
    ensures Join(AcquireParts(timeout, limit, lease)) == PrintInt(timeout) + Behind(limit, lease)
  {
    var parts := AcquireParts(timeout, limit, lease);
    assert parts[0] == PrintInt(timeout) && parts[1..] == Present(limit) + Present(lease);
    if |parts| > 1 { EnqueueArgText(limit, lease); }
  }

  lemma EnqueueArgText(limit: Option<int>, lease: Option<int>)
    ensures limit.None? && lease.None? ==> Join(EnqueueParts(limit, lease)) == ""
    ensures limit.Some? || lease.Some? ==> " " + Join(EnqueueParts(limit, lease)) == Behind(limit, lease)
  {
    var parts := EnqueueParts(limit, lease);
    if |parts| == 2 { assert parts[1..] == [PrintInt(lease.value)]; }
  }

  lemma WireText(c: Command)
    ensures Wire(c) == Encode(c.name + "\n" + c.key + "\n" + c.arg + "\n")
  {
    EncodeConcat(c.name + "\n", c.key + "\n");
    EncodeConcat(c.name + "\n" + (c.key + "\n"), c.arg + "\n");
    assert c.name + "\n" + (c.key + "\n") + (c.arg + "\n") == c.name + "\n" + c.key + "\n" + c.arg + "\n";
  }

  lemma ArgText(q: Request)
    ensures FrameText(q) == Name(q) + "\n" + Key(q) + "\n" + Arg(q) + "\n"
  {
    if q.Acquire? {
      AcquireArgText(q.timeout, q.limit, q.lease);
    } else if q.Enqueue? {
      EnqueueArgText(q.limit, q.lease);
    } else if q.Renew? {
      RenewArgText(q.token, q.lease);
    }
  }

  lemma RenewArgText(token: string, lease: Option<int>)
    ensures RenewArg(token, lease) == token + Behind(None, lease)
  {
  }

  /** The bytes of every accepted request. */
  lemma FrameBytes(q: Request)
    requires Valid(q)
    ensures Frame(q) == Ok(Encode(FrameText(q)))
  {
    AcceptedIffValid(q);
    WireText(CommandOf(q));
    ArgText(q);
  }

  /** A word of 1 to 256 bytes without a blank. */
  predicate ShortWord(s: string) { s != "" && |Encode(s)| <= 256 && ' ' !in s && '\t' !in s && '\n' !in s && '\r' !in s }

  predicate LeaseInNumbers(lease: Option<int>) { lease.Some? ==> 1 <= lease.value <= 9_223_372_036 }

  /** No prefix and no limit, or prefix "s" and a positive limit. */
  predicate LimitInNumbers(prefix: string, limit: Option<int>) {
    if limit.None? then prefix == "" else prefix == "s" && limit.value >= 1
  }

  /** Which requests are accepted, in numbers. */
  lemma AcceptedInNumbers(q: Request)
    ensures q.Acquire? ==> (Frame(q).Ok? <==>
      && ShortWord(q.key) && LimitInNumbers(q.prefix, q.limit) && LeaseInNumbers(q.lease) && 0 <= q.timeout <= 9_223_372_036
      && |PrintInt(q.timeout) + Behind(q.limit, q.lease)| <= 256)
    ensures q.Enqueue? ==> (Frame(q).Ok? <==>
      && ShortWord(q.key) && LimitInNumbers(q.prefix, q.limit) && LeaseInNumbers(q.lease) && |Behind(q.limit, q.lease)| <= 257)
    ensures q.Wait? ==> (Frame(q).Ok? <==> ShortWord(q.key) && q.prefix in ["", "s"] && 0 <= q.timeout <= 9_223_372_036)
    ensures q.Release? ==> (Frame(q).Ok? <==> ShortWord(q.key) && q.prefix in ["", "s"] && ShortWord(q.token))
    ensures q.Renew? ==> (Frame(q).Ok? <==>
      && ShortWord(q.key) && q.prefix in ["", "s"] && ShortWord(q.token) && LeaseInNumbers(q.lease)
      && |Encode(q.token + Behind(None, q.lease))| <= 256)
    ensures q.Auth? ==> (Frame(q).Ok? <==> '\n' !in q.token && '\r' !in q.token && |Encode(q.token)| <= 65536)
    ensures q.Stats? ==> Frame(q).Ok?
  {
    AcceptedIffValid(q);
    if q.Acquire? {
      AcquireArgText(q.timeout, q.limit, q.lease);
    } else if q.Enqueue? {
      EnqueueArgText(q.limit, q.lease);
    } else if q.Renew? {
      RenewArgText(q.token, q.lease);
    }
  }

  lemma NumericArg(numbers: seq<nat>)
    ensures Ascii(Join(PrintAll(numbers))) && NoNewlines(Join(PrintAll(numbers)))
    ensures ByteLen(Join(PrintAll(numbers))) == |Join(PrintAll(numbers))|
  {
    AllPrinted(numbers);
    JoinAscii(PrintAll(numbers));
    ByteLength(Join(PrintAll(numbers)));
  }

  lemma {:induction false} AllPrinted(numbers: seq<nat>)
    ensures forall i :: 0 <= i < |PrintAll(numbers)| ==> Ascii(PrintAll(numbers)[i]) && NoNewlines(PrintAll(numbers)[i])
  {
    if numbers != [] {
      PrintIntDigits(numbers[0]);
      AllPrinted(numbers[1..]);
    }
  }

  /** A second count of the protocol has at most ten digits. */
  lemma ShortSeconds(n: nat)
    requires SecondsOk(n, 0)
    ensures |PrintInt(n)| <= 10 && ByteLen(PrintInt(n)) <= 10 && NoNewlines(PrintInt(n))
  {
    assert Pow10(10) == 10_000_000_000;
    PrintLength(n, 10);
    PrintIntDigits(n);
    ByteLength(PrintInt(n));
  }

  predicate OneLine(c: Command) { '\n' !in c.name && '\n' !in c.key && '\n' !in c.arg }

  lemma ReadWire(c: Command, rest: seq<byte>)
    requires OneLine(c)
    ensures ReadCommand(Wire(c) + rest) == Some((c, rest)) && Wire(c) != []
  {
    var b2 := Encode(c.arg + "\n") + rest;
    var b1 := Encode(c.key + "\n") + b2;
    assert Wire(c) + rest == Encode(c.name + "\n") + b1;
    ReadEncodedLine(c.name, b1);
    ReadEncodedLine(c.key, b2);
    ReadEncodedLine(c.arg, rest);
    ByteLength(c.arg + "\n");
  }

  lemma WireRead(b: seq<byte>)
    requires ReadCommand(b).Some?
    ensures b == Wire(ReadCommand(b).value.0) + ReadCommand(b).value.1
  {
    var name := ReadLine(b).value;
    var key := ReadLine(name.1).value;
    var arg := ReadLine(key.1).value;
    EncodedReadLine(b);
    EncodedReadLine(name.1);
    EncodedReadLine(key.1);
    Regroup(Encode(name.0 + "\n"), Encode(key.0 + "\n"), Encode(arg.0 + "\n"), arg.1);
  }

  lemma Regroup(x: seq<byte>, y: seq<byte>, z: seq<byte>, rest: seq<byte>)
    ensures x + (y + (z + rest)) == x + y + z + rest
  {
  }

  lemma CutFirst(b: seq<byte>, c: Command, rest: seq<byte>, cs: seq<Command>)
    requires b != [] && ReadCommand(b) == Some((c, rest)) && Cut(rest) == Some(cs)
    ensures Cut(b) == Some([c] + cs)
  {
  }

  lemma CutNext(c: Command, rest: seq<byte>, cs: seq<Command>)
    requires OneLine(c) && Cut(rest) == Some(cs)
    ensures Cut(Wire(c) + rest) == Some([c] + cs)
  {
    ReadWire(c, rest);
    CutFirst(Wire(c) + rest, c, rest, cs);
  }

  lemma {:induction false} CutWire(cs: seq<Command>)
    requires forall i :: 0 <= i < |cs| ==> OneLine(cs[i])
    ensures Cut(WireAll(cs)) == Some(cs)
  {
    if cs != [] {
      CutWire(cs[1..]);
      CutNext(cs[0], WireAll(cs[1..]), cs[1..]);
      assert cs == [cs[0]] + cs[1..];
    }
  }

  lemma {:induction false} WireCut(b: seq<byte>)
    requires Cut(b).Some?
    ensures WireAll(Cut(b).value) == b
    decreases |b|
  {
    if b != [] {
      WireRead(b);
      WireCut(ReadCommand(b).value.1);
      assert Cut(b).value[1..] == Cut(ReadCommand(b).value.1).value;
    }
  }

  function CommandsOf(qs: seq<Request>): seq<Command> {
    if qs == [] then [] else [CommandOf(qs[0])] + CommandsOf(qs[1..])
  }

  lemma {:induction false} StreamIsWire(qs: seq<Request>)
    requires forall q :: q in qs ==> Frame(q).Ok?
    ensures Stream(qs) == WireAll(CommandsOf(qs))
    ensures forall i :: 0 <= i < |CommandsOf(qs)| ==> OneLine(CommandsOf(qs)[i])
  {
    if qs != [] {
      AcceptedIffValid(qs[0]);
      NoNewlinesWritten(qs[0]);
      StreamIsWire(qs[1..]);
      assert CommandsOf(qs)[1..] == CommandsOf(qs[1..]);
    }
  }

  lemma ReadOne(q: Request, c: Command)
    requires Frame(q).Ok? && c == CommandOf(q)
    ensures ReadRequest(c.name, c.key, c.arg) == Some(q)
  {
    AcceptedIffValid(q);
    ReadWritten(q);
  }

  lemma OneRead(c: Command, q: Request)
    requires ReadRequest(c.name, c.key, c.arg) == Some(q)
    ensures Frame(q).Ok? && CommandOf(q) == c
  {
    WrittenRead(c.name, c.key, c.arg);
    AcceptedIffValid(q);
  }

  lemma {:induction false} ReadCommands(qs: seq<Request>)
    requires forall q :: q in qs ==> Frame(q).Ok?
    ensures ReadAll(CommandsOf(qs)) == Some(qs)
  {
    if qs != [] {
      ReadOne(qs[0], CommandOf(qs[0]));
      ReadCommands(qs[1..]);
      assert CommandsOf(qs)[1..] == CommandsOf(qs[1..]) && qs == [qs[0]] + qs[1..];
    }
  }

  lemma {:induction false} CommandsRead(cs: seq<Command>)
    requires ReadAll(cs).Some?
    ensures CommandsOf(ReadAll(cs).value) == cs
    ensures forall q :: q in ReadAll(cs).value ==> Frame(q).Ok?
  {
    if cs != [] {
      var qs := ReadAll(cs).value;
      OneRead(cs[0], qs[0]);
      CommandsRead(cs[1..]);
      assert qs[1..] == ReadAll(cs[1..]).value;
      forall q | q in qs ensures Frame(q).Ok? {
        assert q == qs[0] || q in qs[1..];
      }
    }
  }

  /** Reading the stream of any valid requests gives exactly those requests. */
  lemma StreamRoundTrip(qs: seq<Request>)
    requires forall q :: q in qs ==> Frame(q).Ok?
    ensures ReadStream(Stream(qs)) == Some(qs)
  {
    StreamIsWire(qs);
    CutWire(CommandsOf(qs));
    ReadCommands(qs);
  }

  /** Only the stream that a client writes for qs is read as qs. */
  lemma StreamUnique(b: seq<byte>)
    requires ReadStream(b).Some?
    ensures forall q :: q in ReadStream(b).value ==> Frame(q).Ok?
    ensures Stream(ReadStream(b).value) == b
  {
    WireCut(b);
    CommandsRead(Cut(b).value);
    StreamIsWire(ReadStream(b).value);
  }

  // ----- why the prefix has to settle the limit

  /** Two acquire arguments are the same text exactly if they have the same timeout and the same numbers behind it. */
  lemma ArgumentsCollide(timeout: nat, limit: Option<int>, lease: Option<int>, timeout2: nat, limit2: Option<int>, lease2: Option<int>)
    requires limit.Some? ==> limit.value >= 0
    requires lease.Some? ==> lease.value >= 0
    requires limit2.Some? ==> limit2.value >= 0
    requires lease2.Some? ==> lease2.value >= 0
    ensures Join(AcquireParts(timeout, limit, lease)) == Join(AcquireParts(timeout2, limit2, lease2)) <==>
      timeout == timeout2 &&
      ((limit == limit2 && lease == lease2)
       || (limit.None? && lease2.None? && lease == limit2)
       || (limit2.None? && lease.None? && limit == lease2))
  {
    AcquirePartsPrinted(timeout, limit, lease);
    AcquirePartsPrinted(timeout2, limit2, lease2);
    var a, b := [timeout] + Given(limit) + Given(lease), [timeout2] + Given(limit2) + Given(lease2);
    NumbersOf(a);
    NumbersOf(b);
    assert a == b <==> timeout == timeout2 && Given(limit) + Given(lease) == Given(limit2) + Given(lease2);
  }
}
