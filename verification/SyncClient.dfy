/**
 The synchronous lock object in its own form: fields updated by the bodies of _SyncBase, one
 call at a time. What may interleave with them is SyncMachine. Every public method is proved
 against the functions of Attempts.
 */
module SyncClient {
  import opened Basics
  import opened Session
  import opened Lifecycle
  import opened Attempts
  import opened Connection
  import opened Renewal

  /** threading.Event, as far as it is used. */
  class StopEvent {
    var raised: bool

    constructor ()
      ensures !raised
    {
      raised := false;
    }
  }

  /** A renew thread and the stop event it was given. */
  class Worker {
    const event: StopEvent

    constructor (e: StopEvent)
      ensures event == e
    {
      event := e;
    }
  }

  class SyncLock {
    var conn: SyncConn?
    var token: Option<Token>
    var lease: int
    var closed: bool
    var renewThread: Worker?
    var stopEvent: StopEvent

    /** What holds between calls. */
    ghost predicate Valid()
      reads this, conn, stopEvent
    {
      && (token.None? ==> lease == 0)
      && (token.Some? ==>
            && 1 <= lease <= MAX_PROTOCOL_SECONDS && conn != null && !closed
            && renewThread != null && renewThread.event == stopEvent && !stopEvent.raised)
      && (conn != null && token.None? ==> renewThread == null && !stopEvent.raised)
      && (closed ==> conn == null && renewThread == null)
      && (conn != null && conn.open ==> Run(conn.trace) == if token.Some? then Holding(token.value) else InQueue)
    }

    /** Nothing is held. */
    ghost predicate Bare()
      reads this
    {
      conn == null && token.None? && lease == 0 && renewThread == null
    }

    ghost function View(): View
      reads this
    {
      if token.Some? then Held(token.value, lease) else if conn != null then Waiting else Resting
    }

    /** The connection's transport and wire; a missing connection counts as a closed one. */
    ghost function Wire(): Link
      reads this, conn
    {
      if conn == null then Link(false, []) else conn.Value()
    }

    constructor ()
      ensures Valid() && Bare() && !closed && fresh(stopEvent) && !stopEvent.raised
    {
      conn, token, lease, closed, renewThread := null, None, 0, false, null;
      stopEvent := new StopEvent();
    }

    // ----- renew thread

    method StartRenew()
      modifies this`renewThread
      ensures fresh(renewThread) && renewThread != null && renewThread.event == stopEvent
    {
      renewThread := new Worker(stopEvent);
    }

    /** Raises the event, joins and forgets the thread. */
    method StopRenew()
      modifies this`renewThread, stopEvent
      ensures renewThread == null
      ensures stopEvent.raised == (old(stopEvent.raised) || old(renewThread) != null)
    {
      if renewThread != null {
        stopEvent.raised := true;
        renewThread := null;
      }
    }

    // ----- close and reset

    method CloseUnlocked()
      requires closed ==> Bare()
      modifies this`conn, this`token, this`lease, this`closed, this`renewThread, stopEvent, conn
      ensures closed && Bare()
      ensures old(conn) != null ==> old(conn).Value() == Link(false, old(conn.trace))
      ensures stopEvent.raised == (old(stopEvent.raised) || !old(closed))
    {
      if closed {
        return;
      }
      closed := true;
      stopEvent.raised := true;
      if conn != null {
        conn.Close();
        conn := null;
      }
      renewThread := null;
      token, lease := None, 0;
    }

    method ResetForNewAttempt()
      requires closed ==> Bare()
      modifies this, stopEvent, conn
      ensures Bare() && !closed && fresh(stopEvent) && !stopEvent.raised
      ensures old(conn) != null ==> old(conn).Value() == Link(false, old(conn.trace))
      ensures old(stopEvent).raised == (old(stopEvent.raised) || !old(closed))
    {
      StopRenew();
      CloseUnlocked();
      closed := false;
      stopEvent := new StopEvent();
    }

    // ----- attempts

    method OpenAndAuthenticate(a: Attempt) returns (ok: bool)
      requires conn == null
      modifies this`conn
      ensures ok <==> a.dialled && (a.auth.Some? ==> a.auth.value == Replied(Done))
      ensures !ok ==> conn == null
      ensures ok ==> fresh(conn) && conn != null && conn.Value() == Link(true, Greeting(a))
    {
      if !a.dialled {
        return false;
      }
      var c := new SyncConn();
      if a.auth.Some? {
        var r := c.Command(Auth, a.auth.value);
        if r != Some(Done) {
          c.Close();
          return false;
        }
        assert c.trace == [Sent(Auth), Got(Done)];
      }
      conn := c;
      return true;
    }

    /** What the three _invoke functions leave behind, of a connection c that was in the state k before. */
    ghost predicate Invoked(c: SyncConn, k: Link, cmd: Cmd, io: Io, ret: Ret)
      reads this, c, stopEvent
    {
      && (View(), ret) == CommandResult(cmd, ReplyOf(k.open, io))
      && c.trace == LinkAfter(k, CmdFrame(cmd), io, false).trace
      && (View().Resting? ==> closed && Bare() && stopEvent.raised && !c.open)
      && (!View().Resting? ==> conn == c && !closed && c.open)
      && (View().Held? ==> renewThread != null && renewThread.event == stopEvent)
      && (View().Waiting? ==> renewThread == null && lease == 0)
    }

    method InvokeAcquire(io: Io) returns (ret: Ret)
      requires conn != null && token.None? && lease == 0 && renewThread == null && !closed
      modifies this`conn, this`token, this`lease, this`closed, this`renewThread, stopEvent, conn
      ensures Invoked(old(conn), old(conn.Value()), CmdAcquire, io, ret)
      ensures stopEvent.raised == (old(stopEvent.raised) || View().Resting?)
    {
      var r := conn.Command(Session.Acquire, io);
      if r.None? || !r.value.Granted? {
        CloseUnlocked();
        return if r == Some(TimedOut) then RetFalse else RetRaised;
      }
      token, lease := Some(r.value.token), r.value.lease;
      StartRenew();
      return RetTrue;
    }

    method InvokeEnqueue(io: Io) returns (ret: Ret)
      requires conn != null && token.None? && lease == 0 && renewThread == null && !closed
      modifies this`conn, this`token, this`lease, this`closed, this`renewThread, stopEvent, conn
      ensures Invoked(old(conn), old(conn.Value()), CmdEnqueue, io, ret)
      ensures stopEvent.raised == (old(stopEvent.raised) || View().Resting?)
    {
      var r := conn.Command(Session.Enqueue, io);
      if r.None? || !(r.value.Granted? || r.value.Queued?) {
        CloseUnlocked();
        return RetRaised;
      }
      if r.value.Granted? {
        token, lease := Some(r.value.token), r.value.lease;
        StartRenew();
        return RetAcquired;
      }
      return RetQueued;
    }

    method InvokeWait(io: Io) returns (ret: Ret)
      requires conn != null && token.None? && lease == 0 && renewThread == null && !closed
      modifies this`conn, this`token, this`lease, this`closed, this`renewThread, stopEvent, conn
      ensures Invoked(old(conn), old(conn.Value()), CmdWait, io, ret)
      ensures stopEvent.raised == (old(stopEvent.raised) || View().Resting?)
    {
      var r := conn.Command(Session.Wait, io);
      if r.None? || !r.value.Granted? {
        CloseUnlocked();
        return if r == Some(TimedOut) then RetFalse else RetRaised;
      }
      token, lease := Some(r.value.token), r.value.lease;
      StartRenew();
      return RetTrue;
    }

    // ----- public calls

    /** A dialled attempt whose command has been carried out leaves the instance as Attempts says. */
    lemma Settled(c: SyncConn, op: Op, a: Attempt, ret: Ret)
      requires AllDecoded(a) && a.dialled && (a.auth.Some? ==> a.auth.value == Replied(Done))
      requires Invoked(c, Link(true, Greeting(a)), CmdOf(op), a.command, ret)
      requires View().Resting? || !stopEvent.raised
      ensures Valid() && (View(), ret) == AttemptResult(op, a)
      ensures View().Resting? ==> Bare()
      ensures conn != null ==> conn == c && conn.trace == AttemptTrace(op, a)
    {
      AttemptPhase(op, a, c.trace);
    }

    method Acquire(a: Attempt) returns (ret: Ret)
      requires Valid() && AllDecoded(a)
      modifies this, stopEvent, conn
      ensures Valid() && (View(), ret) == AttemptResult(OpAcquire, a)
      ensures ret == RetTrue <==> Connected(a) && Grants(a.command)
      ensures ret == RetTrue ==> a.command == Replied(Granted(token.value, lease)) && renewThread != null && renewThread.event == stopEvent
      ensures ret == RetFalse <==> Connected(a) && a.command == Replied(TimedOut)
      ensures ret == RetTrue || ret == RetFalse || ret == RetRaised
      ensures conn != null ==> fresh(conn) && conn.trace == AttemptTrace(OpAcquire, a)
      ensures View().Resting? ==> Bare()
      ensures old(conn) != null ==> old(conn).Value() == Link(false, old(conn.trace))
      ensures old(renewThread) != null ==> old(stopEvent).raised
    {
      ResetForNewAttempt();
      var ok := OpenAndAuthenticate(a);
      if !ok {
        return RetRaised;
      }
      ghost var c := conn;
      ret := InvokeAcquire(a.command);
      Settled(c, OpAcquire, a, ret);
      AttemptMeans(OpAcquire, a);
    }

    method Enqueue(a: Attempt) returns (ret: Ret)
      requires Valid() && AllDecoded(a)
      modifies this, stopEvent, conn
      ensures Valid() && (View(), ret) == AttemptResult(OpEnqueue, a)
      ensures ret == RetAcquired <==> Connected(a) && Grants(a.command)
      ensures ret == RetAcquired ==> a.command == Replied(Granted(token.value, lease)) && renewThread != null && renewThread.event == stopEvent
      ensures ret == RetQueued <==> Connected(a) && a.command == Replied(Queued)
      ensures ret == RetQueued ==> conn != null && token.None?
      ensures ret == RetAcquired || ret == RetQueued || ret == RetRaised
      ensures conn != null ==> fresh(conn) && conn.trace == AttemptTrace(OpEnqueue, a)
      ensures View().Resting? ==> Bare()
      ensures old(conn) != null ==> old(conn).Value() == Link(false, old(conn.trace))
      ensures old(renewThread) != null ==> old(stopEvent).raised
    {
      ResetForNewAttempt();
      var ok := OpenAndAuthenticate(a);
      if !ok {
        return RetRaised;
      }
      ghost var c := conn;
      ret := InvokeEnqueue(a.command);
      Settled(c, OpEnqueue, a, ret);
      AttemptMeans(OpEnqueue, a);
    }

    method Wait(io: Io) returns (ret: Ret)
      requires Valid() && Decoded(io)
      modifies this, stopEvent, conn
      ensures Valid() && (View(), ret) == WaitResult(old(View()), old(Wire()).open, io)
      ensures old(token).Some? ==> ret == RetTrue && token == old(token) && lease == old(lease)
      ensures old(token).None? ==> (ret == RetTrue <==> old(Wire()).open && Grants(io))
      ensures old(token).None? && ret == RetTrue ==> token.Some? && io == Replied(Granted(token.value, lease)) && renewThread != null
      ensures ret == RetFalse <==> old(token).None? && old(Wire()).open && io == Replied(TimedOut)
      ensures ret == RetTrue || ret == RetFalse || ret == RetRaised
      ensures conn != null ==> conn == old(conn)
      ensures old(conn) != null ==>
        old(conn).trace == (if old(token).Some? then old(conn.trace) else LinkAfter(old(Wire()), Session.Wait, io, false).trace)
    {
      if token.Some? {
        return RetTrue;
      }
      if conn == null {
        return RetRaised;
      }
      if io.Replied? { ExchangePhase(conn.trace, Session.Wait, io.reply); }
      ret := InvokeWait(io);
      WaitMeans(Waiting, old(Wire()).open, io);
    }

    method SendReleaseQuietly(io: Io) returns (released: bool)
      modifies conn
      ensures released <==> old(conn) != null && token.Some? && ReplyOf(old(Wire()).open, io) == Some(Done)
      ensures conn != null ==>
        conn.Value() == (if token.Some? then LinkAfter(old(Wire()), Session.Release(token.value), io, false) else old(Wire()))
    {
      if conn == null || token.None? {
        return false;
      }
      var r := conn.Command(Session.Release(token.value), io);
      return r == Some(Done);
    }

    method Release(io: Io) returns (ret: Ret)
      requires Valid()
      modifies this, stopEvent, conn
      ensures Valid() && closed && Bare()
      ensures ret == ReleaseResult(old(View()), old(Wire()).open, io)
      ensures ret == RetTrue || ret == RetFalse
      ensures ret == RetTrue ==>
        old(token).Some? && old(conn).trace == old(conn.trace) + [Sent(Session.Release(old(token.value))), Got(Done)]
      ensures old(conn) != null ==>
        old(conn).Value() == Link(false,
          if old(token).Some? then LinkAfter(old(Wire()), Session.Release(old(token.value)), io, false).trace
          else old(conn.trace))
      ensures old(renewThread) != null ==> old(stopEvent).raised
    {
      StopRenew();
      var released := SendReleaseQuietly(io);
      CloseUnlocked();
      return if released then RetTrue else RetFalse;
    }

    method Close()
      requires Valid()
      modifies this, stopEvent, conn
      ensures Valid() && closed && Bare()
      ensures old(conn) != null ==> old(conn).Value() == Link(false, old(conn.trace))
      ensures old(renewThread) != null ==> old(stopEvent).raised
    {
      CloseUnlocked();
    }

    // ----- the renew worker

    method HandleRenewFailure(c: SyncConn)
      modifies this`conn, this`token, this`lease, c
      ensures old(conn) == c ==> conn == null && token.None? && lease == 0 && c.Value() == Link(false, old(c.trace))
      ensures old(conn) != c ==> conn == old(conn) && token == old(token) && lease == old(lease) && c.Value() == old(c.Value())
    {
      if conn == c {
        conn := null;
        token, lease := None, 0;
        c.Close();
      }
    }

    /** A tick of the worker that was started with event: nothing at all once the event is raised or the instance closed. */
    method RenewTick(event: StopEvent, io: Io) returns (remaining: Option<int>)
      requires Valid() && Decoded(io) && !io.Cancelled?
      modifies this`conn, this`token, this`lease, conn
      ensures Valid() && (conn != null ==> conn == old(conn))
      ensures closed || event.raised || old(token).None? ==> remaining.None? && View() == old(View()) && Wire() == old(Wire())
      ensures !closed && !event.raised && old(token).Some? ==>
        old(conn).trace == if old(conn.open) then TraceAfter(old(conn.trace), Session.Renew(old(token.value)), io) else old(conn.trace)
      ensures remaining.Some? ==> old(token).Some? && View() == old(View())
      ensures remaining.Some? ==>
        old(conn).trace == old(conn.trace) + [Sent(Session.Renew(old(token.value))), Got(Renewed(remaining.value))]
      ensures !closed && !event.raised ==> (View(), remaining) == TickResult(old(View()), old(Wire()).open, io)
      ensures remaining.Some? ==> 0 <= remaining.value <= MAX_PROTOCOL_SECONDS && conn != null && conn.open == old(conn.open)
      ensures !closed && !event.raised && old(token).Some? && remaining.None? ==> conn == null && !old(conn).open
    {
      if closed || event.raised || conn == null || token.None? {
        return None;
      }
      var c, t := conn, token.value;
      if io.Replied? { ExchangePhase(c.trace, Session.Renew(t), io.reply); }
      var r := c.Command(Session.Renew(t), io);
      if r.Some? && r.value.Renewed? {
        return Some(r.value.remaining);
      }
      HandleRenewFailure(c);
      return None;
    }

    method UpdateLease(remaining: int)
      requires Valid() && remaining <= MAX_PROTOCOL_SECONDS
      modifies this`lease
      ensures Valid() && View() == Updated(old(View()), remaining)
      ensures lease == if remaining > 0 && token.Some? && !closed then remaining else old(lease)
    {
      if remaining > 0 && token.Some? && !closed {
        lease := remaining;
      }
    }

    /** What a renew loop with this result leaves behind. */
    ghost predicate LoopLeaves(l: Loop, sleeps: seq<real>, taken: seq<Turn>)
      reads this
    {
      View() == l.view && taken == l.taken && sleeps == l.sleeps
    }

    ghost function LoopBegin(ratio: real): Loop
      reads this, conn
    {
      LoopStart(View(), Wire().trace, lease, ratio)
    }

    /**
     _renew_loop of the worker that holds event, over the turns it takes while nobody else acts:
     it sleeps exactly the intervals of Renewal.Sleeps, and leaves one exchange for every report.
     */
    method RenewLoop(event: StopEvent, ratio: real, turns: seq<TurnIo>) returns (sleeps: seq<real>, taken: seq<Turn>)
      requires Valid() && !closed && !event.raised
      requires forall i :: 0 <= i < |turns| && turns[i].Tick? ==> Decoded(turns[i].io) && !turns[i].io.Cancelled?
      modifies this`conn, this`token, this`lease, conn
      ensures Valid() && LoopLeaves(LoopResult(old(LoopBegin(ratio)), ratio, old(Wire()).open, turns, |turns|), sleeps, taken)
      ensures sleeps == Sleeps(old(lease), ratio, taken)
      ensures old(conn) != null ==> old(conn).trace == LoopResult(old(LoopBegin(ratio)), ratio, old(Wire()).open, turns, |turns|).wire
    {
      ghost var start, open := LoopBegin(ratio), Wire().open;
      LoopSleeps(View(), Wire().trace, lease, ratio, open, turns, |turns|);
      var interval := RenewInterval(lease, ratio);
      sleeps, taken := [interval], [];
      var i := 0;
      while i < |turns|
        invariant i <= |turns| && Valid() && !closed && !event.raised
        invariant conn == old(conn) && Wire().open == open
        invariant LoopResult(start, ratio, open, turns, i) == Loop(View(), Wire().trace, taken, sleeps, true)
      {
        if turns[i].Wakes? {
          taken := taken + [Woken];
          LoopEnded(start, ratio, open, turns, i + 1, |turns|);
          return;
        }
        var remaining := RenewTick(event, turns[i].io);
        var turn := Ticked(remaining, turns[i].stopped);
        taken := taken + [turn];
        if !GoesOn(turn) {
          LoopEnded(start, ratio, open, turns, i + 1, |turns|);
          return;
        }
        interval := RenewInterval(remaining.value, ratio);
        UpdateLease(remaining.value);
        sleeps := sleeps + [interval];
        i := i + 1;
      }
    }
  }
}
