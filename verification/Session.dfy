/**
 The conversation that may take place on one connection: which frames the client
 writes, which replies it reads, and the automaton that says which orders are legal.
 */
module Session {
  import opened Basics

  type Token = string

  /** Upper bound of every second count in the protocol (_protocol.py, line 49). */
  const MAX_PROTOCOL_SECONDS: int := 9_223_372_036

  /** One three-line frame, by its command letter. */
  datatype Frame = Auth | Acquire | Enqueue | Wait | Renew(token: Token) | Release(token: Token)

  /** A reply line as the decoders see it. Refused is any line whose decoder raises. */
  datatype Reply =
    | Granted(token: Token, lease: int)
    | Queued
    | TimedOut
    | Renewed(remaining: int)
    | Done
    | Refused

  /** The bounds that the decoders enforce on server-supplied second counts. */
  predicate ReplyInBounds(r: Reply) {
    match r
    case Granted(_, lease) => 1 <= lease <= MAX_PROTOCOL_SECONDS
    case Renewed(remaining) => 0 <= remaining <= MAX_PROTOCOL_SECONDS
    case _ => true
  }

  datatype Event = Sent(frame: Frame) | Got(reply: Reply)

  /** Where a connection stands in its conversation. */
  datatype Phase =
    | Fresh | AuthSent | Ready
    | AcquireSent | EnqueueSent | InQueue | WaitSent
    | Holding(token: Token) | RenewSent(token: Token)
    | ReleaseSent | Over | Bad

  function Advance(p: Phase, e: Event): Phase {
    match (p, e)
    case (Fresh, Sent(Auth)) => AuthSent
    case (AuthSent, Got(r)) => if r == Done then Ready else Over
    case (Fresh, Sent(Acquire)) => AcquireSent
    case (Ready, Sent(Acquire)) => AcquireSent
    case (Fresh, Sent(Enqueue)) => EnqueueSent
    case (Ready, Sent(Enqueue)) => EnqueueSent
    case (AcquireSent, Got(r)) => if r.Granted? then Holding(r.token) else Over
    case (EnqueueSent, Got(r)) => if r.Granted? then Holding(r.token) else if r.Queued? then InQueue else Over
    case (InQueue, Sent(Wait)) => WaitSent
    case (WaitSent, Got(r)) => if r.Granted? then Holding(r.token) else Over
    case (Holding(t), Sent(Renew(u))) => if t == u then RenewSent(t) else Bad
    case (RenewSent(t), Got(r)) => if r.Renewed? then Holding(t) else Over
    case (Holding(t), Sent(Release(u))) => if t == u then ReleaseSent else Bad
    case (ReleaseSent, Got(_)) => Over
    case _ => Bad
  }

  /** The phase reached by a whole trace. */
  function Run(trace: seq<Event>): Phase {
    if trace == [] then Fresh else Advance(Run(trace[..|trace| - 1]), trace[|trace| - 1])
  }

  lemma RunAppend(trace: seq<Event>, e: Event)
    ensures Run(trace + [e]) == Advance(Run(trace), e)
  {
    assert (trace + [e])[..|trace|] == trace;
  }

  /** The frames of a trace, in the order they were written. */
  function Frames(trace: seq<Event>): seq<Frame> {
    if trace == [] then []
    else
      var last := trace[|trace| - 1];
      Frames(trace[..|trace| - 1]) + if last.Sent? then [last.frame] else []
  }

  function GrantAfter(granted: Option<Token>, e: Event): Option<Token> {
    if granted.None? && e.Got? && e.reply.Granted? then Some(e.reply.token) else granted
  }

  /** The token granted in a trace: a session has at most one grant. */
  function GrantOf(trace: seq<Event>): Option<Token> {
    if trace == [] then None else GrantAfter(GrantOf(trace[..|trace| - 1]), trace[|trace| - 1])
  }

  /** The last event of a conversation in which a command awaits its reply is the frame of that command. */
  lemma LastIsFrame(trace: seq<Event>)
    requires Run(trace).AuthSent? || Run(trace).AcquireSent? || Run(trace).EnqueueSent? || Run(trace).WaitSent?
      || Run(trace).RenewSent? || Run(trace).ReleaseSent?
    ensures trace != [] && trace[|trace| - 1].Sent?
    ensures var f := trace[|trace| - 1].frame;
      && (Run(trace).AuthSent? ==> f == Auth) && (Run(trace).AcquireSent? ==> f == Acquire)
      && (Run(trace).EnqueueSent? ==> f == Enqueue) && (Run(trace).WaitSent? ==> f == Wait)
      && (Run(trace).RenewSent? ==> f == Renew(Run(trace).token)) && (Run(trace).ReleaseSent? ==> f.Release?)
  {
  }

  function ToldAfter(told: int, e: Event): int {
    match e
    case Got(Granted(_, lease)) => lease
    case Got(Renewed(remaining)) => if remaining > 0 then remaining else told
    case _ => told
  }

  /** The lease that the server last spoke of on a connection: in its grant, or in a positive answer to a renew. */
  function Told(trace: seq<Event>): int {
    if trace == [] then 0 else ToldAfter(Told(trace[..|trace| - 1]), trace[|trace| - 1])
  }

  lemma ToldAppend(trace: seq<Event>, e: Event)
    ensures Told(trace + [e]) == ToldAfter(Told(trace), e)
  {
    assert (trace + [e])[..|trace|] == trace;
  }

  predicate AllRenew(frames: seq<Frame>, token: Token) {
    forall i :: 0 <= i < |frames| ==> frames[i] == Renew(token)
  }

  /** One session: an optional auth, then one way of asking, then renews, then at most one release. */
  datatype Parts = Parts(auth: seq<Frame>, ask: seq<Frame>, renews: seq<Frame>, release: seq<Frame>)

  predicate WellFormed(p: Parts, granted: Option<Token>) {
    && (p.auth == [] || p.auth == [Auth])
    && (p.ask == [] || p.ask == [Acquire] || p.ask == [Enqueue] || p.ask == [Enqueue, Wait])
    && (p.renews + p.release != [] ==> granted.Some? && p.ask != [])
    && (granted.Some? ==> AllRenew(p.renews, granted.value) && (p.release == [] || p.release == [Release(granted.value)]))
  }

  /** The frames of a session follow the grammar auth? (l | e | e w)? n* r?, with the granted token in every n and r. */
  ghost predicate InGrammar(frames: seq<Frame>, granted: Option<Token>) {
    exists p: Parts :: frames == p.auth + p.ask + p.renews + p.release && WellFormed(p, granted)
  }

  /** What the automaton's phase says about the parts already sent. */
  predicate PhaseParts(phase: Phase, p: Parts, granted: Option<Token>) {
    match phase
    case Fresh => p == Parts([], [], [], []) && granted.None?
    case AuthSent => p == Parts([Auth], [], [], []) && granted.None?
    case Ready => p == Parts([Auth], [], [], []) && granted.None?
    case AcquireSent => p.ask == [Acquire] && p.renews == [] && p.release == [] && granted.None?
    case EnqueueSent => p.ask == [Enqueue] && p.renews == [] && p.release == [] && granted.None?
    case InQueue => p.ask == [Enqueue] && p.renews == [] && p.release == [] && granted.None?
    case WaitSent => p.ask == [Enqueue, Wait] && p.renews == [] && p.release == [] && granted.None?
    case Holding(t) => p.ask != [] && p.release == [] && granted == Some(t)
    case RenewSent(t) => p.ask != [] && p.release == [] && granted == Some(t)
    case _ => true
  }

  /** The parts once one more event has happened. */
  function AddPart(p: Parts, e: Event): Parts {
    match e
    case Sent(Auth) => p.(auth := p.auth + [Auth])
    case Sent(Renew(t)) => p.(renews := p.renews + [Renew(t)])
    case Sent(Release(t)) => p.(release := p.release + [Release(t)])
    case Sent(f) => p.(ask := p.ask + [f])
    case Got(_) => p
  }

  function Whole(p: Parts): seq<Frame> { p.auth + p.ask + p.renews + p.release }

  lemma AddPartAppends(phase: Phase, p: Parts, granted: Option<Token>, e: Event)
    requires PhaseParts(phase, p, granted) && Advance(phase, e) != Bad
    ensures Whole(AddPart(p, e)) == Whole(p) + if e.Sent? then [e.frame] else []
  {
  }

  lemma AddPartPhase(phase: Phase, p: Parts, granted: Option<Token>, e: Event)
    requires WellFormed(p, granted) && PhaseParts(phase, p, granted) && Advance(phase, e) != Bad
    ensures WellFormed(AddPart(p, e), GrantAfter(granted, e))
    ensures PhaseParts(Advance(phase, e), AddPart(p, e), GrantAfter(granted, e))
  {
  }

  lemma {:induction false} TraceParts(trace: seq<Event>) returns (p: Parts)
    requires Run(trace) != Bad
    ensures Frames(trace) == Whole(p)
    ensures WellFormed(p, GrantOf(trace)) && PhaseParts(Run(trace), p, GrantOf(trace))
  {
    if trace == [] {
      p := Parts([], [], [], []);
    } else {
      var before := trace[..|trace| - 1];
      var q := TraceParts(before);
      AddPartAppends(Run(before), q, GrantOf(before), trace[|trace| - 1]);
      AddPartPhase(Run(before), q, GrantOf(before), trace[|trace| - 1]);
      p := AddPart(q, trace[|trace| - 1]);
    }
  }

  /** Every legal trace is a session of the grammar. */
  lemma SessionGrammar(trace: seq<Event>)
    requires Run(trace) != Bad
    ensures InGrammar(Frames(trace), GrantOf(trace))
  {
    var p := TraceParts(trace);
  }

  lemma {:induction false} PrefixLegal(trace: seq<Event>, k: nat)
    requires Run(trace) != Bad && k <= |trace|
    ensures Run(trace[..k]) != Bad
  {
    if k == |trace| {
      assert trace[..k] == trace;
    } else {
      var before := trace[..|trace| - 1];
      PrefixLegal(before, k);
      assert before[..k] == trace[..k];
    }
  }

  /** The phase after event j of a legal trace. */
  lemma PhaseAt(trace: seq<Event>, j: nat)
    requires Run(trace) != Bad && j < |trace|
    ensures Run(trace[..j]) != Bad && Advance(Run(trace[..j]), trace[j]) == Run(trace[..j + 1]) != Bad
  {
    PrefixLegal(trace, j);
    PrefixLegal(trace, j + 1);
    RunAppend(trace[..j], trace[j]);
    assert trace[..j + 1] == trace[..j] + [trace[j]];
  }

  /** A frame is answered before the next one is sent: two commands are never in flight together. */
  lemma NoOverlap(trace: seq<Event>, i: nat)
    requires Run(trace) != Bad && i + 1 < |trace| && trace[i].Sent?
    ensures trace[i + 1].Got?
  {
    PhaseAt(trace, i);
    PhaseAt(trace, i + 1);
    if trace[i + 1].Sent? { OneInFlight(Run(trace[..i]), trace[i], trace[i + 1]); }
  }

  lemma OneInFlight(p: Phase, e: Event, f: Event)
    requires e.Sent? && f.Sent?
    ensures Advance(Advance(p, e), f) == Bad
  {
  }

  lemma {:induction false} AfterRelease(trace: seq<Event>, i: nat)
    requires Run(trace) != Bad && i < |trace| && trace[i].Sent? && trace[i].frame.Release?
    ensures Run(trace) == (if i == |trace| - 1 then ReleaseSent else Over)
  {
    var before := trace[..|trace| - 1];
    if i < |trace| - 1 {
      PrefixLegal(trace, |trace| - 1);
      AfterRelease(before, i);
    }
  }

  /** Nothing is sent after a release: in particular no renew of the released grant. */
  lemma ReleaseIsLast(trace: seq<Event>, i: nat, j: nat)
    requires Run(trace) != Bad && i < j < |trace| && trace[i].Sent? && trace[i].frame.Release?
    ensures !trace[j].Sent?
  {
    PrefixLegal(trace, j);
    PrefixLegal(trace, j + 1);
    AfterRelease(trace[..j], i);
    RunAppend(trace[..j], trace[j]);
    assert trace[..j + 1] == trace[..j] + [trace[j]];
  }

  lemma StepsBack(p: Phase, e: Event)
    ensures Advance(p, Sent(Wait)) != Bad ==> p == InQueue
    ensures Advance(p, e) == InQueue ==> p == EnqueueSent && e == Got(Queued)
    ensures Advance(p, e) == EnqueueSent ==> e == Sent(Enqueue)
  {
  }

  /** A wait is sent only directly after an enqueue that was answered "queued". */
  lemma WaitFollowsQueued(trace: seq<Event>, j: nat)
    requires Run(trace) != Bad && j < |trace| && trace[j] == Sent(Wait)
    ensures j >= 2 && trace[j - 1] == Got(Queued) && trace[j - 2] == Sent(Enqueue)
  {
    PhaseAt(trace, j);
    StepsBack(Run(trace[..j]), trace[j]);
    assert j > 0 by { assert trace[..0] == []; }
    PhaseAt(trace, j - 1);
    StepsBack(Run(trace[..j - 1]), trace[j - 1]);
    assert j > 1 by { assert trace[..0] == []; }
    PhaseAt(trace, j - 2);
    StepsBack(Run(trace[..j - 2]), trace[j - 2]);
  }
}
