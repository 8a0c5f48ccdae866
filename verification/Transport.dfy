/**
 One connection shared by any number of callers: SyncConn.command and AsyncConn.command.
 A step is one action of one call before or under the connection's mutex, one action of the
 peer, or a close from outside. The peer answers complete frames in the order in which they
 reach it; the number that a reply carries here is the call it answers, which the real
 reply does not show.
 */
module Transport {
  import opened Basics
  import opened Runs

  /** SyncConn encodes before it takes the mutex; AsyncConn encodes under it, and closes only once the write is committed. */
  datatype Flavour = Threads | Tasks

  datatype Call =
    | Wanting               // wants the mutex
    | Entered               // has the mutex; the frame is not committed
    | Committed             // the whole frame is written, the reply is awaited
    | Answered(reply: nat)  // returned; reply is the call that the line answers
    | Raised

  /** What passes over the wire, seen from the client. */
  datatype Item = Piece(call: nat) | Whole(call: nat) | Line(call: nat, reply: nat)

  /**
   open is the transport; holder has the mutex; asked and answers are the frames and the
   reply lines on their way; log is everything that passed.
   */
  datatype State = State(
    flavour: Flavour, open: bool, holder: Option<nat>, calls: seq<Call>,
    asked: seq<nat>, answers: seq<nat>, log: seq<Item>)

  function Initial(f: Flavour): State { State(f, true, None, [], [], [], []) }

  datatype Label =
    | Begin(encodable: bool)             // a new call; with threads a frame that does not encode raises here
    | Take(i: nat)                       // the mutex
    | Part(i: nat)                       // threads: some of the frame leaves
    | Commit(i: nat)                     // the rest of the frame leaves
    | WriteFails(i: nat, reached: bool)  // threads: sendall raises; reached: all of the frame left nevertheless
    | EncodeFails(i: nat)                // tasks: encode_lines or write raises before anything is committed
    | Read(i: nat)                       // a line is read and decodes
    | ReadBad(i: nat)                    // a line is read that is too long or not UTF-8
    | Break(i: nat)                      // timeout, I/O error or cancellation while the reply is awaited
    | GiveUp(i: nat)                     // cancelled while waiting for the mutex
    | Answer                             // the peer answers its oldest frame
    | Close                              // close or shutdown from outside

  function CallAt(s: State, i: nat): Call { if i < |s.calls| then s.calls[i] else Raised }

  function SetCall(s: State, i: nat, c: Call): State {
    if i < |s.calls| then s.(calls := s.calls[i := c]) else s
  }

  /** Leaving the mutex with an exception, the transport closed. */
  function Fail(s: State, i: nat): State { SetCall(s, i, Raised).(open := false, holder := None) }

  predicate Enabled(s: State, l: Label) {
    match l
    case Begin(_) => true
    case Take(i) => CallAt(s, i).Wanting? && s.holder.None?
    case Part(i) => s.flavour.Threads? && CallAt(s, i).Entered? && s.open
    case Commit(i) => CallAt(s, i).Entered? && s.open
    case WriteFails(i, reached) => s.flavour.Threads? && CallAt(s, i).Entered? && (reached ==> s.open)
    case EncodeFails(i) => s.flavour.Tasks? && CallAt(s, i).Entered?
    case Read(i) => CallAt(s, i).Committed? && s.open && s.answers != []
    case ReadBad(i) => CallAt(s, i).Committed? && s.open && s.answers != []
    case Break(i) => CallAt(s, i).Committed?
    case GiveUp(i) => CallAt(s, i).Wanting?
    case Answer => s.asked != []
    case Close => true
  }

  function Next(s: State, l: Label): State
    requires Enabled(s, l)
  {
    match l
    case Begin(encodable) => s.(calls := s.calls + [if encodable || s.flavour.Tasks? then Wanting else Raised])
    case Take(i) => SetCall(s, i, Entered).(holder := Some(i))
    case Part(i) => s.(log := s.log + [Piece(i)])
    case Commit(i) => SetCall(s, i, Committed).(asked := s.asked + [i], log := s.log + [Whole(i)])
    case WriteFails(i, reached) =>
      if reached then Fail(s.(asked := s.asked + [i], log := s.log + [Whole(i)]), i) else Fail(s, i)
    case EncodeFails(i) => SetCall(s, i, Raised).(holder := None)
    case Read(i) =>
      SetCall(s, i, Answered(s.answers[0])).(holder := None, answers := s.answers[1..], log := s.log + [Line(i, s.answers[0])])
    case ReadBad(i) => Fail(s.(answers := s.answers[1..]), i)
    case Break(i) => Fail(s, i)
    case GiveUp(i) => SetCall(s, i, Raised)
    case Answer => s.(asked := s.asked[1..], answers := s.answers + [s.asked[0]])
    case Close => s.(open := false)
  }

  /** The step, or nothing if it cannot be taken. */
  function Step(s: State, l: Label): State { if Enabled(s, l) then Next(s, l) else s }

  predicate Possible(s: State, labels: seq<Label>) { Legal(Enabled, Step, s, labels) }

  function After(s: State, labels: seq<Label>): State { End(Step, s, labels) }

  ghost predicate Reachable(s: State) {
    exists labels :: Possible(Initial(s.flavour), labels) && After(Initial(s.flavour), labels) == s
  }

  // ----- the wire, as exchanges

  /** Between exchanges, inside the frame of a call, or before its reply. */
  datatype Place = Rest | InFrame(call: nat) | AwaitsLine(call: nat) | Clash

  function Move(p: Place, it: Item): Place {
    match it
    case Piece(i) => if p == Rest || p == InFrame(i) then InFrame(i) else Clash
    case Whole(i) => if p == Rest || p == InFrame(i) then AwaitsLine(i) else Clash
    case Line(i, r) => if p == AwaitsLine(i) && r == i then Rest else Clash
  }

  function Scan(log: seq<Item>): Place {
    if log == [] then Rest else Move(Scan(log[..|log| - 1]), log[|log| - 1])
  }

  lemma ScanAppend(log: seq<Item>, it: Item)
    ensures Scan(log + [it]) == Move(Scan(log), it)
  {
    assert (log + [it])[..|log|] == log;
  }

  lemma {:induction false} ScanPrefix(log: seq<Item>, k: nat)
    requires Scan(log) != Clash && k <= |log|
    ensures Scan(log[..k]) != Clash
  {
    if k == |log| {
      assert log[..k] == log;
    } else {
      ScanPrefix(log[..|log| - 1], k);
      assert log[..|log| - 1][..k] == log[..k];
    }
  }

  // ----- the invariant

  /** The call that waits for its reply under the mutex. */
  function InFlight(s: State): seq<nat> {
    if s.holder.Some? && CallAt(s, s.holder.value).Committed? then [s.holder.value] else []
  }

  predicate Holding(c: Call) { c.Entered? || c.Committed? }

  /** Where the wire stands while the transport is open. */
  predicate WireOk(s: State, p: Place) {
    if s.holder.None? then p == Rest
    else if CallAt(s, s.holder.value).Committed? then p == AwaitsLine(s.holder.value)
    else p == Rest || (s.flavour.Threads? && p == InFrame(s.holder.value))
  }

  ghost predicate Silent(log: seq<Item>, i: nat) { forall k :: 0 <= k < |log| ==> log[k].call != i }

  predicate CallOk(s: State, i: nat) {
    && (Holding(CallAt(s, i)) <==> s.holder == Some(i))
    && (CallAt(s, i).Answered? ==> CallAt(s, i).reply == i)
  }

  ghost predicate Inv(s: State) {
    && (s.holder.Some? ==> s.holder.value < |s.calls|)
    && (forall i :: 0 <= i < |s.calls| ==> CallOk(s, i))
    && (s.open ==> s.answers + s.asked == InFlight(s))
    && Scan(s.log) != Clash
    && (s.open ==> WireOk(s, Scan(s.log)))
    && (forall k :: 0 <= k < |s.log| ==> s.log[k].call < |s.calls|)
    && (forall i :: 0 <= i < |s.calls| && s.calls[i].Wanting? ==> Silent(s.log, i))
    && (s.open && s.holder.Some? && CallAt(s, s.holder.value).Entered? && s.flavour.Tasks? ==> Silent(s.log, s.holder.value))
    && (s.open ==> forall i :: 0 <= i < |s.calls| && s.calls[i].Raised? ==> Silent(s.log, i))
  }

  lemma BeginKeeps(s: State, encodable: bool)
    requires Inv(s)
    ensures Inv(Next(s, Begin(encodable)))
  {
    var t := Next(s, Begin(encodable));
    forall i | 0 <= i < |t.calls| ensures CallOk(t, i) { assert i < |s.calls| ==> CallOk(s, i) && CallAt(t, i) == CallAt(s, i); }
    assert forall i :: 0 <= i < |s.calls| ==> t.calls[i] == s.calls[i];
  }

  lemma TakeKeeps(s: State, i: nat)
    requires Inv(s) && Enabled(s, Take(i))
    ensures Inv(Next(s, Take(i)))
  {
    var t := Next(s, Take(i));
    forall j | 0 <= j < |t.calls| ensures CallOk(t, j) { assert CallOk(s, j); }
  }

  /** Leaving without having written anything. */
  lemma LeaveKeeps(s: State, l: Label)
    requires Inv(s) && Enabled(s, l) && (l.EncodeFails? || l.GiveUp?)
    ensures Inv(Next(s, l))
  {
    var t := Next(s, l);
    assert CallOk(s, l.i);
    forall j | 0 <= j < |t.calls| ensures CallOk(t, j) { assert CallOk(s, j); }
  }

  lemma CloseKeeps(s: State, l: Label)
    requires Inv(s) && Enabled(s, l) && (l.Close? || l.Break? || l.ReadBad?)
    ensures Inv(Next(s, l))
  {
    var t := Next(s, l);
    if !l.Close? { assert CallOk(s, l.i); }
    forall j | 0 <= j < |t.calls| ensures CallOk(t, j) { assert CallOk(s, j); }
  }

  lemma AnswerKeeps(s: State)
    requires Inv(s) && Enabled(s, Answer)
    ensures Inv(Next(s, Answer))
  {
    var t := Next(s, Answer);
    assert s.asked == [s.asked[0]] + s.asked[1..];
    assert t.answers + t.asked == s.answers + s.asked;
    forall i | 0 <= i < |t.calls| ensures CallOk(t, i) { assert CallOk(s, i); }
  }

  /** Bytes of a frame leave. */
  lemma WriteKeeps(s: State, l: Label)
    requires Inv(s) && Enabled(s, l) && (l.Part? || l.Commit?)
    ensures Inv(Next(s, l))
  {
    var t := Next(s, l);
    assert CallOk(s, l.i);
    ScanAppend(s.log, if l.Part? then Piece(l.i) else Whole(l.i));
    forall i | 0 <= i < |t.calls| ensures CallOk(t, i) { assert CallOk(s, i); }
  }

  lemma WriteFailsKeeps(s: State, i: nat, reached: bool)
    requires Inv(s) && Enabled(s, WriteFails(i, reached))
    ensures Inv(Next(s, WriteFails(i, reached)))
  {
    var t := Next(s, WriteFails(i, reached));
    assert CallOk(s, i);
    ScanAppend(s.log, Whole(i));
    forall j | 0 <= j < |t.calls| ensures CallOk(t, j) { assert CallOk(s, j); }
  }

  lemma ReadKeeps(s: State, i: nat)
    requires Inv(s) && Enabled(s, Read(i))
    ensures Inv(Next(s, Read(i)))
  {
    var t := Next(s, Read(i));
    assert CallOk(s, i);
    assert (s.answers + s.asked)[0] == i;
    assert |s.answers + s.asked| == 1;
    ScanAppend(s.log, Line(i, i));
    forall j | 0 <= j < |t.calls| ensures CallOk(t, j) { assert CallOk(s, j); }
  }

  lemma NextKeeps(s: State, l: Label)
    requires Inv(s) && Enabled(s, l)
    ensures Inv(Next(s, l))
  {
    match l
    case Answer => AnswerKeeps(s);
    case Part(_) => WriteKeeps(s, l);
    case Commit(_) => WriteKeeps(s, l);
    case WriteFails(i, reached) => WriteFailsKeeps(s, i, reached);
    case Read(i) => ReadKeeps(s, i);
    case Begin(encodable) => BeginKeeps(s, encodable);
    case Take(i) => TakeKeeps(s, i);
    case EncodeFails(_) => LeaveKeeps(s, l);
    case GiveUp(_) => LeaveKeeps(s, l);
    case ReadBad(_) => CloseKeeps(s, l);
    case Break(_) => CloseKeeps(s, l);
    case Close => CloseKeeps(s, l);
  }

  lemma ReachableInv(s: State)
    requires Reachable(s)
    ensures Inv(s)
  {
    var labels :| Possible(Initial(s.flavour), labels) && After(Initial(s.flavour), labels) == s;
    forall t, l | Inv(t) && Enabled(t, l) ensures Inv(Step(t, l)) { NextKeeps(t, l); }
    Invariant(Enabled, Step, t => Inv(t), Initial(s.flavour), labels);
  }

  // ----- what callers may rely on

  /** Every reply that command returns belongs to the caller's own frame. */
  lemma ReplyPairing(s: State, i: nat)
    requires Reachable(s) && i < |s.calls| && s.calls[i].Answered?
    ensures s.calls[i].reply == i
  {
    ReachableInv(s);
    assert CallOk(s, i);
  }

  /** While the transport is open the only frame or reply under way is that of the call that awaits it under the mutex. */
  lemma NothingOutstanding(s: State)
    requires Reachable(s) && s.open
    ensures s.answers + s.asked == InFlight(s)
    ensures s.holder.None? ==> s.answers == [] && s.asked == [] && Scan(s.log) == Rest
  {
    ReachableInv(s);
  }

  /** A call that raises leaves the transport open only if none of its bytes were written. */
  lemma RaisedUnheard(s: State, i: nat)
    requires Reachable(s) && s.open && i < |s.calls| && s.calls[i].Raised?
    ensures Silent(s.log, i)
  {
    ReachableInv(s);
  }

  /** A closed transport passes nothing more, and no later call returns a reply, however late the peer answers. */
  lemma {:induction false} ClosedForEver(s: State, labels: seq<Label>)
    requires !s.open && Possible(s, labels)
    ensures !After(s, labels).open && After(s, labels).log == s.log && |s.calls| <= |After(s, labels).calls|
    ensures forall i :: CallAt(After(s, labels), i).Answered? ==> CallAt(After(s, labels), i) == CallAt(s, i)
    ensures forall i :: 0 <= i < |s.calls| && s.calls[i].Raised? ==> After(s, labels).calls[i].Raised?
    decreases |labels|
  {
    if labels != [] {
      var t := Next(s, labels[0]);
      assert forall i :: 0 <= i < |s.calls| && s.calls[i].Raised? ==> t.calls[i].Raised?;
      ClosedForEver(t, labels[1..]);
    }
  }

  /**
   A failure of a call after its first byte, whichever way it comes, ends the connection: that call
   has raised, and in every continuation no byte passes any more and every other call that had
   no reply yet never gets one.
   */
  lemma NoReplyAfterFailure(s: State, l: Label, labels: seq<Label>, i: nat)
    requires Enabled(s, l) && (l.WriteFails? || l.ReadBad? || l.Break?) && Possible(Next(s, l), labels)
    ensures var t := After(Next(s, l), labels);
      && !t.open && t.log == Next(s, l).log && CallAt(t, l.i).Raised?
      && (CallAt(t, i).Answered? <==> CallAt(s, i).Answered?) && (CallAt(s, i).Answered? ==> CallAt(t, i) == CallAt(s, i))
  {
    var n := Next(s, l);
    ClosedForEver(n, labels);
    if CallAt(s, i).Answered? { AnsweredForEver(n, labels, i); }
  }

  lemma {:induction false} AnsweredForEver(s: State, labels: seq<Label>, i: nat)
    requires Possible(s, labels) && CallAt(s, i).Answered?
    ensures CallAt(After(s, labels), i) == CallAt(s, i)
    decreases |labels|
  {
    if labels != [] {
      AnsweredForEver(Next(s, labels[0]), labels[1..], i);
    }
  }

  /** Frames and replies never interleave: a frame is followed by its own reply before another call writes a byte. */
  lemma Exchanges(s: State, k: nat)
    requires Reachable(s) && k + 1 < |s.log|
    ensures s.log[k].Piece? ==> (s.log[k + 1].Piece? || s.log[k + 1].Whole?) && s.log[k + 1].call == s.log[k].call
    ensures s.log[k].Whole? ==> s.log[k + 1] == Line(s.log[k].call, s.log[k].call)
    ensures s.log[k].Line? ==> !s.log[k + 1].Line?
  {
    ReachableInv(s);
    ScanPrefix(s.log, k + 1);
    ScanPrefix(s.log, k + 2);
    assert s.log[..k + 1] == s.log[..k] + [s.log[k]];
    assert s.log[..k + 2] == s.log[..k + 1] + [s.log[k + 1]];
    ScanAppend(s.log[..k], s.log[k]);
    ScanAppend(s.log[..k + 1], s.log[k + 1]);
  }

  /** The mutex cannot be held for ever: its holder can always leave, without the peer. */
  lemma HolderCanLeave(s: State) returns (l: Label)
    requires Reachable(s) && s.holder.Some?
    ensures Enabled(s, l) && Next(s, l).holder.None?
  {
    ReachableInv(s);
    var i := s.holder.value;
    assert CallOk(s, i);
    l := if s.calls[i].Committed? then Break(i) else if s.flavour.Threads? then WriteFails(i, false) else EncodeFails(i);
  }

  // ----- what becomes of a call

  /**
   A line that is read and decodes ends its call: it returns the answer to its own frame, with the transport
   still open and the mutex free.
   */
  lemma GoodLineReturns(s: State, i: nat)
    requires Reachable(s) && s.open && CallAt(s, i).Committed? && s.answers != []
    ensures Enabled(s, Read(i))
    ensures var t := Next(s, Read(i));
      t.open && t.holder.None? && CallAt(t, i) == Answered(i) && t.log == s.log + [Line(i, i)] && t.answers == [] && t.asked == []
  {
    ReachableInv(s);
    assert CallOk(s, i);
    assert s.answers + s.asked == [i];
    assert (s.answers + s.asked)[0] == s.answers[0] && |s.answers + s.asked| == 1;
  }

  /** The steps of an undisturbed exchange. */
  function Undisturbed(i: nat): seq<Label> { [Take(i), Commit(i), Answer, Read(i)] }

  /**
   A call that is not disturbed gets the mutex, writes its whole frame and returns the answer to it, and
   leaves the transport open.
   */
  lemma UndisturbedReturns(s: State, i: nat)
    requires Reachable(s) && s.open && s.holder.None? && CallAt(s, i).Wanting?
    ensures Possible(s, Undisturbed(i))
    ensures After(s, Undisturbed(i)) == SetCall(s, i, Answered(i)).(log := s.log + [Whole(i), Line(i, i)])
  {
    NothingOutstanding(s);
    Extend(Enabled, Step, s, [], Take(i));
    var s1 := After(s, [] + [Take(i)]);
    Extend(Enabled, Step, s, [] + [Take(i)], Commit(i));
    var s2 := After(s, [] + [Take(i)] + [Commit(i)]);
    Extend(Enabled, Step, s, [] + [Take(i)] + [Commit(i)], Answer);
    Extend(Enabled, Step, s, [] + [Take(i)] + [Commit(i)] + [Answer], Read(i));
    assert [] + [Take(i)] + [Commit(i)] + [Answer] + [Read(i)] == Undisturbed(i);
  }

  /**
   What one step does to a call and to the transport. A failure after the frame is committed, a bad line
   and, with threads, a failed write end the call and close the transport. With tasks a failure before
   the commitment, and in both a cancelled wait for the mutex or a frame that does not encode, end it only.
   */
  lemma FailureKinds(s: State, l: Label)
    requires Enabled(s, l)
    ensures l.Break? || l.ReadBad? || l.WriteFails? ==> !Next(s, l).open && Next(s, l).holder.None? && CallAt(Next(s, l), l.i).Raised?
    ensures l.EncodeFails? ==> Next(s, l).open == s.open && Next(s, l).holder.None? && CallAt(Next(s, l), l.i).Raised?
    ensures l.GiveUp? ==> Next(s, l).open == s.open && Next(s, l).holder == s.holder && CallAt(Next(s, l), l.i).Raised?
    ensures l.Begin? ==> Next(s, l) == s.(calls := s.calls + [if s.flavour.Threads? && !l.encodable then Raised else Wanting])
    ensures l.ReadBad? ==> Next(s, l).answers == s.answers[1..]
    ensures l.EncodeFails? || l.GiveUp? || l.Break? || l.ReadBad? ==> Next(s, l).log == s.log
  {
  }
}
