/**
 What one call of a lock object does when nothing interleaves with it, as functions of the
 outcome of every I/O action. The synchronous and the asynchronous client meet the same
 functions.
 */
module Attempts {
  import opened Basics
  import opened Session
  import opened Lifecycle
  import opened Renewal

  /** What becomes of one command. Cancelled occurs in the asynchronous client only. */
  datatype Io =
    | NotEncoded               // a validator or encode_lines raises
    | WriteFails
    | ReadFails                // timeout, end of file, I/O error, a line that does not decode
    | Cancelled
    | Replied(reply: Reply)

  /** The decoders let nothing else through. */
  predicate Decoded(io: Io) { io.Replied? ==> ReplyInBounds(io.reply) }

  /** Whether open_conn returns, the auth command if a token is configured, and the command of the attempt. */
  datatype Attempt = Attempt(dialled: bool, auth: Option<Io>, command: Io)

  predicate AllDecoded(a: Attempt) { Decoded(a.command) && (a.auth.Some? ==> Decoded(a.auth.value)) }

  /** Transport and wire of one connection. */
  datatype Link = Link(open: bool, trace: seq<Event>)

  /** What a command leaves on the wire of an open transport. */
  function TraceAfter(trace: seq<Event>, f: Frame, io: Io): seq<Event> {
    if io.NotEncoded? || io.WriteFails? then trace
    else if io.Replied? then trace + [Sent(f), Got(io.reply)]
    else trace + [Sent(f)]
  }

  /** keep says that a failed write leaves the transport open, as AsyncConn does before the write is committed. */
  function LinkAfter(k: Link, f: Frame, io: Io, keep: bool): Link {
    if io.NotEncoded? then k
    else if !k.open || io.WriteFails? then (if keep then k else k.(open := false))
    else Link(io.Replied?, TraceAfter(k.trace, f, io))
  }

  /** The decoded reply, unless command raises. */
  function ReplyOf(open: bool, io: Io): Option<Reply> {
    if open && io.Replied? then Some(io.reply) else None
  }

  /** What an instance holds between calls. */
  datatype View = Resting | Waiting | Held(token: Token, lease: int)

  /** acquire() and enqueue(). */
  function AttemptResult(op: Op, a: Attempt): (View, Ret) {
    if !a.dialled || (a.auth.Some? && a.auth.value != Replied(Done)) then (Resting, RetRaised)
    else CommandResult(CmdOf(op), ReplyOf(true, a.command))
  }

  /** The end of acquire(), enqueue() and wait(), once the reply is there. */
  function CommandResult(cmd: Cmd, r: Option<Reply>): (View, Ret) {
    if r.None? then (Resting, RetRaised)
    else if r.value.Granted? then (Held(r.value.token, r.value.lease), GrantRet(cmd))
    else if r.value.Queued? && cmd.CmdEnqueue? then (Waiting, RetQueued)
    else if r.value.TimedOut? && !cmd.CmdEnqueue? then (Resting, RetFalse)
    else (Resting, RetRaised)
  }

  /** wait(); open is the transport of a waiting instance. */
  function WaitResult(v: View, open: bool, io: Io): (View, Ret) {
    match v
    case Held(_, _) => (v, RetTrue)
    case Resting => (v, RetRaised)
    case Waiting => CommandResult(CmdWait, ReplyOf(open, io))
  }

  /** release(): it tells whether the server confirmed. */
  function ReleaseResult(v: View, open: bool, io: Io): Ret {
    if v.Held? && ReplyOf(open, io) == Some(Done) then RetTrue else RetFalse
  }

  /** One renew tick that nobody stopped: what is held afterwards, and the seconds reported. A cancelled tick changes no field. */
  function TickResult(v: View, open: bool, io: Io): (View, Option<int>) {
    if !v.Held? || (open && io.Cancelled?) then (v, None)
    else
      var r := ReplyOf(open, io);
      if r.Some? && r.value.Renewed? then (v, Some(r.value.remaining)) else (Resting, None)
  }

  /** _update_lease. */
  function Updated(v: View, remaining: int): View {
    if v.Held? && remaining > 0 then Held(v.token, remaining) else v
  }

  /** What a renew worker meets in one turn: its event during the sleep, or a tick, and its event after the tick. */
  datatype TurnIo = Wakes | Tick(io: Io, stopped: bool)

  /** A renew loop: what is held, the wire, the turns taken, the intervals slept, and whether it goes on. */
  datatype Loop = Loop(view: View, wire: seq<Event>, taken: seq<Turn>, sleeps: seq<real>, going: bool)

  /** The loop in its first sleep. */
  function LoopStart(v: View, wire: seq<Event>, lease: int, ratio: real): Loop {
    Loop(v, wire, [], [RenewInterval(lease, ratio)], true)
  }

  /** One turn of a loop that goes on. */
  function TurnResult(l: Loop, ratio: real, open: bool, met: TurnIo): Loop {
    if met.Wakes? then l.(taken := l.taken + [Woken], going := false)
    else
      var (w, remaining) := TickResult(l.view, open, met.io);
      var turn := Ticked(remaining, met.stopped);
      var wire := if l.view.Held? && open then TraceAfter(l.wire, Session.Renew(l.view.token), met.io) else l.wire;
      if GoesOn(turn) then
        Loop(Updated(w, remaining.value), wire, l.taken + [turn], l.sleeps + [RenewInterval(remaining.value, ratio)], true)
      else Loop(w, wire, l.taken + [turn], l.sleeps, false)
  }

  /** The loop after at most n turns, while nobody else acts; open is the transport as long as it goes on. */
  function LoopResult(start: Loop, ratio: real, open: bool, turns: seq<TurnIo>, n: nat): Loop
    requires n <= |turns|
  {
    if n == 0 then start
    else
      var before := LoopResult(start, ratio, open, turns, n - 1);
      if before.going then TurnResult(before, ratio, open, turns[n - 1]) else before
  }

  /** A loop that has ended stays as it is. */
  lemma {:induction false} LoopEnded(start: Loop, ratio: real, open: bool, turns: seq<TurnIo>, n: nat, m: nat)
    requires n <= m <= |turns| && !LoopResult(start, ratio, open, turns, n).going
    ensures LoopResult(start, ratio, open, turns, m) == LoopResult(start, ratio, open, turns, n)
    decreases m
  {
    if n < m { LoopEnded(start, ratio, open, turns, n, m - 1); }
  }

  lemma TurnSleeps(l: Loop, lease: int, ratio: real, open: bool, met: TurnIo)
    requires l.going && Slept(lease, ratio, l.taken, l.sleeps)
    ensures var m := TurnResult(l, ratio, open, met); m.sleeps == Sleeps(lease, ratio, m.taken) && (m.going ==> |m.sleeps| == |m.taken| + 1)
  {
    var m := TurnResult(l, ratio, open, met);
    SleptOn(lease, ratio, l.taken, l.sleeps, m.taken[|l.taken|]);
  }

  /** Its sleeps are those of Renewal. */
  lemma {:induction false} LoopSleeps(v: View, wire: seq<Event>, lease: int, ratio: real, open: bool, turns: seq<TurnIo>, n: nat)
    requires n <= |turns|
    ensures var l := LoopResult(LoopStart(v, wire, lease, ratio), ratio, open, turns, n);
      l.sleeps == Sleeps(lease, ratio, l.taken) && (l.going ==> |l.sleeps| == |l.taken| + 1)
  {
    if n > 0 {
      LoopSleeps(v, wire, lease, ratio, open, turns, n - 1);
      var before := LoopResult(LoopStart(v, wire, lease, ratio), ratio, open, turns, n - 1);
      if before.going { TurnSleeps(before, lease, ratio, open, turns[n - 1]); }
    }
  }

  // ----- what the results mean

  /** The instance has its connection, authenticated if it has to be. */
  predicate Connected(a: Attempt) { a.dialled && (a.auth.Some? ==> a.auth.value == Replied(Done)) }

  predicate Grants(io: Io) { io.Replied? && io.reply.Granted? }

  /**
   Every outcome of an attempt. It holds exactly what was granted, and with a lease in range; it has
   queued exactly if an enqueue was answered so; only an acquire that timed out on the server
   returns false; and everything else raises and holds nothing.
   */
  lemma AttemptMeans(op: Op, a: Attempt)
    requires AllDecoded(a)
    ensures var (v, ret) := AttemptResult(op, a);
      && (v.Held? <==> Connected(a) && Grants(a.command))
      && (v.Held? ==> a.command == Replied(Granted(v.token, v.lease)) && 1 <= v.lease <= MAX_PROTOCOL_SECONDS)
      && (v.Held? ==> ret == if op == OpAcquire then RetTrue else RetAcquired)
      && (v.Waiting? <==> Connected(a) && op == OpEnqueue && a.command == Replied(Queued))
      && (v.Waiting? ==> ret == RetQueued)
      && (ret == RetFalse <==> Connected(a) && op == OpAcquire && a.command == Replied(TimedOut))
      && (v.Resting? ==> ret == RetFalse || ret == RetRaised)
  {
  }

  /**
   Every outcome of a wait. A held instance and an idle one are left as they are; one in line holds
   exactly what is granted to it, returns false exactly if it timed out, and otherwise raises.
   */
  lemma WaitMeans(v: View, open: bool, io: Io)
    requires Decoded(io)
    ensures var (w, ret) := WaitResult(v, open, io);
      && (v.Held? ==> w == v && ret == RetTrue)
      && (v.Resting? ==> w == v && ret == RetRaised)
      && (v.Waiting? ==>
            && (w.Held? <==> open && Grants(io))
            && (w.Held? ==> ret == RetTrue && io == Replied(Granted(w.token, w.lease)) && 1 <= w.lease <= MAX_PROTOCOL_SECONDS)
            && (ret == RetFalse <==> open && io == Replied(TimedOut))
            && !w.Waiting? && (w.Resting? ==> ret == RetFalse || ret == RetRaised))
  {
  }

  /** Every outcome of a release and of a renew tick, and what a report changes. */
  lemma CallsMean(v: View, open: bool, io: Io)
    requires Decoded(io)
    ensures ReleaseResult(v, open, io) == if v.Held? && open && io == Replied(Done) then RetTrue else RetFalse
    ensures var (w, remaining) := TickResult(v, open, io);
      && (!v.Held? ==> w == v && remaining.None?)
      && (v.Held? && open && io.Cancelled? ==> w == v && remaining.None?)
      && (remaining.Some? <==> v.Held? && open && io.Replied? && io.reply.Renewed?)
      && (remaining.Some? ==> w == v && io == Replied(Renewed(remaining.value)) && 0 <= remaining.value <= MAX_PROTOCOL_SECONDS)
      && (v.Held? && remaining.None? && !(open && io.Cancelled?) ==> w.Resting?)
  {
  }

  /** A positive report becomes the lease of what is held; nothing else changes. */
  lemma ReportStored(v: View, remaining: int)
    ensures v.Held? && remaining > 0 ==> Updated(v, remaining) == Held(v.token, remaining)
    ensures !v.Held? || remaining <= 0 ==> Updated(v, remaining) == v
  {
  }

  /**
   What a command leaves on its connection: nothing if no frame was written, the frame alone if no line
   came back that could be decoded, and the frame with its reply otherwise. With a reply the transport
   stays as it was; every failure once the frame is encoded closes it, but for one before
   the commitment of the frame where that is kept apart.
   */
  lemma LinkMeans(k: Link, f: Frame, io: Io, keep: bool)
    ensures var l := LinkAfter(k, f, io, keep);
      && (io.NotEncoded? || io.WriteFails? || !k.open ==> l.trace == k.trace)
      && (k.open && (io.ReadFails? || io.Cancelled?) ==> l.trace == k.trace + [Sent(f)])
      && (k.open && io.Replied? ==> l.trace == k.trace + [Sent(f), Got(io.reply)])
      && (l.open <==> k.open && (io.Replied? || io.NotEncoded? || (io.WriteFails? && keep)))
  {
  }

  /** The wire of an attempt, event by event. */
  lemma AttemptWire(op: Op, a: Attempt)
    requires Connected(a)
    ensures a.command.Replied? ==>
      AttemptTrace(op, a) == (if a.auth.Some? then [Sent(Auth), Got(Done)] else [])
        + [Sent(if op == OpAcquire then Acquire else Enqueue), Got(a.command.reply)]
    ensures a.command.ReadFails? ==>
      AttemptTrace(op, a) == (if a.auth.Some? then [Sent(Auth), Got(Done)] else []) + [Sent(if op == OpAcquire then Acquire else Enqueue)]
  {
  }

  /** What a tick reports, if it is not the last. */
  predicate Reports(io: Io) { io.Replied? && io.reply.Renewed? }

  /**
   The turns of a loop over a held instance and an open transport: each is what its outcome says, all
   but the last go on, and the loop ends exactly at a turn that does not.
   */
  lemma {:induction false} LoopTurns(start: Loop, ratio: real, turns: seq<TurnIo>, n: nat)
    requires n <= |turns| && start.view.Held? && start.taken == [] && start.going
    ensures TurnsTaken(LoopResult(start, ratio, true, turns, n), turns, n)
  {
    if n > 0 {
      LoopTurns(start, ratio, turns, n - 1);
      var before := LoopResult(start, ratio, true, turns, n - 1);
      if before.going { OneMoreTurn(before, ratio, turns, n); }
    }
  }

  predicate TurnsTaken(l: Loop, turns: seq<TurnIo>, n: nat)
    requires n <= |turns|
  {
    && |l.taken| <= n && (forall k :: 0 <= k < |l.taken| ==> TurnOf(l.taken[k], turns[k]))
    && (forall k :: 0 <= k < |l.taken| - 1 ==> GoesOn(l.taken[k]))
    && (if l.going then |l.taken| == n && l.view.Held? && (n > 0 ==> GoesOn(l.taken[n - 1]))
        else l.taken != [] && !GoesOn(l.taken[|l.taken| - 1]))
  }

  lemma OneMoreTurn(l: Loop, ratio: real, turns: seq<TurnIo>, n: nat)
    requires 0 < n <= |turns| && l.going && TurnsTaken(l, turns, n - 1)
    ensures TurnsTaken(TurnResult(l, ratio, true, turns[n - 1]), turns, n)
  {
    var m := TurnResult(l, ratio, true, turns[n - 1]);
    assert |m.taken| == n && m.taken[..n - 1] == l.taken && TurnOf(m.taken[n - 1], turns[n - 1]);
    forall k | 0 <= k < n ensures TurnOf(m.taken[k], turns[k]) { assert k < n - 1 ==> m.taken[k] == l.taken[k]; }
    forall k | 0 <= k < n - 1 ensures GoesOn(m.taken[k]) { assert m.taken[k] == l.taken[k]; }
  }

  /** The lease after these turns: the last positive report of a turn that went on. */
  function LeaseAfter(lease: int, taken: seq<Turn>): int {
    if taken == [] then lease
    else
      var last := taken[|taken| - 1];
      if GoesOn(last) && last.result.value > 0 then last.result.value else LeaseAfter(lease, taken[..|taken| - 1])
  }

  /** A turn of the loop and the outcome that it met. */
  predicate TurnOf(turn: Turn, met: TurnIo) {
    if met.Wakes? then turn == Woken
    else turn == Ticked(if Reports(met.io) then Some(met.io.reply.remaining) else None, met.stopped)
  }

  /** The renew exchanges of a token with these reports. */
  function Exchanges(token: Token, reports: seq<int>): seq<Event> {
    if reports == [] then []
    else Exchanges(token, reports[..|reports| - 1]) + [Sent(Session.Renew(token)), Got(Renewed(reports[|reports| - 1]))]
  }

  /** After n turns that all reported the wire carries n exchanges more: a renew of the token each, answered with its report. */
  lemma {:induction false} LoopExchanges(start: Loop, ratio: real, turns: seq<TurnIo>, reports: seq<int>)
    requires start.view.Held? && start.going && |reports| <= |turns|
    requires forall k :: 0 <= k < |reports| ==> turns[k] == Tick(Replied(Renewed(reports[k])), false)
    ensures var l := LoopResult(start, ratio, true, turns, |reports|);
      l.going && l.view.Held? && l.view.token == start.view.token && l.wire == start.wire + Exchanges(start.view.token, reports)
    decreases |reports|
  {
    if reports == [] {
      assert start.wire + [] == start.wire;
    } else {
      var n := |reports| - 1;
      LoopExchanges(start, ratio, turns, reports[..n]);
      var done, last := Exchanges(start.view.token, reports[..n]), [Sent(Session.Renew(start.view.token)), Got(Renewed(reports[n]))];
      assert start.wire + done + last == start.wire + (done + last);
    }
  }

  /** Held is the token of v with the last lease reported, which is in range, or the loop has ended with nothing. */
  predicate KeepsToken(l: Loop, v: View)
    requires v.Held?
  {
    && (l.view == Held(v.token, LeaseAfter(v.lease, l.taken)) || (l.view == Resting && !l.going))
    && 1 <= LeaseAfter(v.lease, l.taken) <= MAX_PROTOCOL_SECONDS
  }

  lemma LeaseAfterOne(lease: int, taken: seq<Turn>, t: Turn)
    ensures LeaseAfter(lease, taken + [t]) == if GoesOn(t) && t.result.value > 0 then t.result.value else LeaseAfter(lease, taken)
  {
    assert (taken + [t])[..|taken|] == taken;
  }

  lemma TurnKeepsToken(l: Loop, v: View, ratio: real, open: bool, met: TurnIo)
    requires v.Held? && l.going && KeepsToken(l, v) && (met.Tick? ==> Decoded(met.io))
    ensures KeepsToken(TurnResult(l, ratio, open, met), v)
  {
    if met.Wakes? {
      LeaseAfterOne(v.lease, l.taken, Woken);
    } else {
      LeaseAfterOne(v.lease, l.taken, Ticked(TickResult(l.view, open, met.io).1, met.stopped));
    }
  }

  /** The loop never exchanges the token: it ends with the same one and the last lease reported, in range, or with nothing. */
  lemma {:induction false} LoopKeepsToken(start: Loop, ratio: real, open: bool, turns: seq<TurnIo>, n: nat)
    requires n <= |turns| && start.view.Held? && 1 <= start.view.lease <= MAX_PROTOCOL_SECONDS && start.taken == [] && start.going
    requires forall j :: 0 <= j < |turns| && turns[j].Tick? ==> Decoded(turns[j].io)
    ensures KeepsToken(LoopResult(start, ratio, open, turns, n), start.view)
  {
    if n > 0 {
      LoopKeepsToken(start, ratio, open, turns, n - 1);
      var before := LoopResult(start, ratio, open, turns, n - 1);
      if before.going { TurnKeepsToken(before, start.view, ratio, open, turns[n - 1]); }
    }
  }

  function LifeOf(v: View, c: nat): Life {
    match v case Resting => AtRest case Waiting => InLine(c) case Held(t, _) => Owner(c, t)
  }

  /** What the calls do is what the abstract machine allows, on one and the same connection c. */
  lemma ResultsAreLifeSteps(op: Op, a: Attempt, v: View, open: bool, io: Io, c: nat)
    ensures var w := AttemptResult(op, a).0; LifeStep(AtRest, LifeOf(w, c), CauseOf(AtRest, LifeOf(w, c)))
    ensures var w := WaitResult(v, open, io).0; LifeStep(LifeOf(v, c), LifeOf(w, c), CauseOf(LifeOf(v, c), LifeOf(w, c)))
    ensures var w := TickResult(v, open, io).0; LifeStep(LifeOf(v, c), LifeOf(w, c), CauseOf(LifeOf(v, c), LifeOf(w, c)))
    ensures LifeOf(Updated(v, 1), c) == LifeOf(v, c)
  {
  }

  /** What a connection has seen when it is handed over: the auth exchange, if a token is configured. */
  function Greeting(a: Attempt): seq<Event> { if a.auth.Some? then [Sent(Auth), Got(Done)] else [] }

  /** The wire of an attempt: what its connection has seen when the command has ended. */
  function AttemptTrace(op: Op, a: Attempt): seq<Event> {
    LinkAfter(Link(true, Greeting(a)), CmdFrame(CmdOf(op)), a.command, false).trace
  }

  /** Where the conversation of a successful attempt stands. */
  lemma AttemptPhase(op: Op, a: Attempt, trace: seq<Event>)
    requires AllDecoded(a) && a.dialled && (a.auth.Some? ==> a.auth.value == Replied(Done))
    requires trace == AttemptTrace(op, a)
    ensures AttemptResult(op, a).0.Held? ==> Run(trace) == Holding(AttemptResult(op, a).0.token)
    ensures AttemptResult(op, a).0.Waiting? ==> Run(trace) == InQueue
  {
    if a.command.Replied? {
      GreetingPhase(a);
      ExchangePhase(Greeting(a), CmdFrame(CmdOf(op)), a.command.reply);
    }
  }

  lemma GreetingPhase(a: Attempt)
    ensures Run(Greeting(a)) == if a.auth.Some? then Ready else Fresh
  {
    ExchangePhase([], Auth, Done);
    assert [] + [Sent(Auth), Got(Done)] == [Sent(Auth), Got(Done)];
  }

  /** The phase after one command and its reply. */
  lemma ExchangePhase(trace: seq<Event>, f: Frame, r: Reply)
    ensures Run(trace + [Sent(f), Got(r)]) == Advance(Advance(Run(trace), Sent(f)), Got(r))
  {
    RunAppend(trace, Sent(f));
    RunAppend(trace + [Sent(f)], Got(r));
    assert trace + [Sent(f)] + [Got(r)] == trace + [Sent(f), Got(r)];
  }
}
