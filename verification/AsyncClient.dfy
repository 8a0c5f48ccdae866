/**
 The asynchronous lock object in its own form: fields updated by the bodies of _AsyncBase, one
 call at a time, with a cancellation possible at every await. What may interleave with them
 is AsyncMachine. Uncancelled calls meet the same functions of Attempts as the synchronous ones.
 */
module AsyncClient {
  import opened Basics
  import opened Session
  import opened Lifecycle
  import opened Attempts
  import opened Connection
  import opened Renewal

  /** asyncio.Task of a renew loop. */
  class RenewTask {
    var cancelled: bool
    var done: bool

    constructor ()
      ensures !cancelled && !done
    {
      cancelled, done := false, false;
    }
  }

  /** Where a close is cancelled: waiting for the renew task, waiting for the transport. */
  datatype CloseCuts = CloseCuts(task: bool, wait: bool)

  const NO_CLOSE_CUTS := CloseCuts(false, false)

  /**
   Where an attempt is cancelled, besides its two commands: in the reset, in the close it makes, while
   dialling, and in the close after a failure.
   */
  datatype AttemptCuts = AttemptCuts(reset: bool, before: CloseCuts, dial: bool, authWait: bool, after: CloseCuts)

  const NO_ATTEMPT_CUTS := AttemptCuts(false, NO_CLOSE_CUTS, false, false, NO_CLOSE_CUTS)

  predicate Uncancelled(a: Attempt) { !a.command.Cancelled? && (a.auth.Some? ==> !a.auth.value.Cancelled?) }

  /**
   A cancellation behind the reset's first wait leaves the attempt by an exception; hadConn says whether its
   close had to wait for a transport.
   */
  predicate Interrupted(op: Op, a: Attempt, cuts: AttemptCuts, hadConn: bool) {
    || (cuts.before.wait && hadConn)
    || (if !a.dialled then cuts.dial
        else if !Connected(a) then a.auth.value.Cancelled? || cuts.authWait
        else AttemptResult(op, a).0.Resting? && (a.command.Cancelled? || cuts.after.wait))
  }

  /** Where a release is cancelled: at the I/O lock, waiting for the renew task, in its close. */
  datatype ReleaseCuts = ReleaseCuts(lock: bool, task: bool, close: CloseCuts)

  class AsyncLock {
    var conn: AsyncConn?
    var token: Option<Token>
    var lease: int
    var closed: bool
    var renewTask: RenewTask?

    /** What holds between calls. A held token may lack its renew task, after a cancelled reset only. */
    ghost predicate Valid()
      reads this, conn, renewTask
    {
      && (token.None? ==> lease == 0)
      && (token.Some? ==> 1 <= lease <= MAX_PROTOCOL_SECONDS && conn != null)
      && (token.Some? && renewTask != null ==> !renewTask.cancelled && !renewTask.done)
      && (conn != null && token.None? ==> renewTask == null)
      && (closed ==> conn == null && renewTask == null)
      && (conn != null && conn.open ==> Run(conn.trace) == if token.Some? then Holding(token.value) else InQueue)
    }

    /** A task renews the lease. */
    ghost predicate KeptAlive()
      reads this, renewTask
    {
      renewTask != null && !renewTask.cancelled && !renewTask.done
    }

    /** A task that a cancellation has to wait for. */
    ghost predicate MustWait()
      reads this, renewTask
    {
      renewTask != null && !renewTask.done
    }

    ghost predicate Bare()
      reads this
    {
      conn == null && token.None? && lease == 0 && renewTask == null
    }

    ghost function View(): View
      reads this
    {
      if token.Some? then Held(token.value, lease) else if conn != null then Waiting else Resting
    }

    ghost function Wire(): Link
      reads this, conn
    {
      if conn == null then Link(false, []) else conn.Value()
    }

    constructor ()
      ensures Valid() && Bare() && !closed
    {
      conn, token, lease, closed, renewTask := null, None, 0, false, null;
    }

    // ----- renew task

    method StartRenew()
      modifies this`renewTask
      ensures fresh(renewTask) && KeptAlive()
    {
      renewTask := new RenewTask();
    }

    /** Cancels the task and waits for it; raised tells that the wait was itself cancelled. */
    method CancelRenew(cut: bool) returns (raised: bool)
      modifies this`renewTask, renewTask
      ensures renewTask == null
      ensures old(MustWait()) ==> old(renewTask).cancelled
      ensures raised <==> cut && old(MustWait())
    {
      var task := renewTask;
      renewTask := null;
      if task == null || task.done {
        return false;
      }
      task.cancelled := true;
      return cut;
    }

    // ----- close and reset

    method ClearHeldState()
      modifies this`token, this`lease
      ensures token.None? && lease == 0
    {
      token, lease := None, 0;
    }

    method DetachConn() returns (c: AsyncConn?)
      modifies this`conn, this`token, this`lease
      ensures c == old(conn) && conn == null && token.None? && lease == 0
    {
      c := conn;
      conn := null;
      ClearHeldState();
    }

    /** Everything is given up before the first suspension point, so that no cancellation can leave anything. */
    method CloseUnlocked(cuts: CloseCuts) returns (raised: bool)
      modifies this, renewTask, conn
      ensures closed && Bare()
      ensures old(conn) != null ==> old(conn).Value() == Link(false, old(conn.trace))
      ensures old(MustWait()) ==> old(renewTask).cancelled
      ensures raised <==> (cuts.task && old(MustWait())) || (cuts.wait && old(conn) != null)
    {
      if closed && conn == null && renewTask == null {
        ClearHeldState();
        return false;
      }
      closed := true;
      var c := DetachConn();
      if c != null {
        c.CloseNowait();
      }
      raised := CancelRenew(cuts.task);
      if raised {
        return true;
      }
      if c != null {
        c.CloseNowait();
        return cuts.wait;
      }
      return false;
    }

    /** The reset was cancelled while a live renew task was being waited for. */
    ghost predicate Orphans(cuts: AttemptCuts)
      reads this, renewTask
    {
      cuts.reset && MustWait()
    }

    /** A cancellation in its first wait leaves token and connection without a renew task; any later one leaves nothing. */
    method ResetForNewAttempt(cuts: AttemptCuts) returns (raised: bool)
      requires Valid()
      modifies this, renewTask, conn
      ensures !raised ==> Bare() && !closed
      ensures raised <==> old(Orphans(cuts)) || (cuts.before.wait && old(conn) != null)
      ensures old(MustWait()) ==> old(renewTask).cancelled
      ensures old(Orphans(cuts)) ==>
        && renewTask == null && conn == old(conn) && token == old(token)
        && lease == old(lease) && Wire() == old(Wire()) && closed == old(closed)
      ensures raised && !old(Orphans(cuts)) ==> closed && Bare()
      ensures old(conn) != null && !old(Orphans(cuts)) ==> old(conn).Value() == Link(false, old(conn.trace))
    {
      raised := CancelRenew(cuts.reset);
      if raised {
        return true;
      }
      raised := CloseUnlocked(cuts.before);
      if raised {
        return true;
      }
      closed := false;
      return false;
    }

    // ----- attempts

    /** RetUnit when the connection is there. */
    method OpenAndAuthenticate(a: Attempt, cuts: AttemptCuts) returns (ret: Ret)
      requires conn == null
      modifies this`conn
      ensures ret.RetUnit? || ret.RetRaised? || ret.RetCancelled?
      ensures ret.RetUnit? <==> Connected(a)
      ensures ret.RetCancelled? <==> !Connected(a) && if a.dialled then a.auth.value.Cancelled? || cuts.authWait else cuts.dial
      ensures !ret.RetUnit? ==> conn == null
      ensures ret.RetUnit? ==> fresh(conn) && conn != null && conn.Value() == Link(true, Greeting(a))
    {
      if !a.dialled {
        return if cuts.dial then RetCancelled else RetRaised;
      }
      var c := new AsyncConn();
      if a.auth.Some? {
        var r := c.Command(Auth, a.auth.value);
        if r != Some(Done) {
          c.CloseNowait();
          return if a.auth.value.Cancelled? || cuts.authWait then RetCancelled else RetRaised;
        }
        assert c.trace == [Sent(Auth), Got(Done)];
      }
      conn := c;
      return RetUnit;
    }

    /** What the three _invoke functions leave behind, of a connection c that was in the state k before. */
    ghost predicate Invoked(c: AsyncConn, k: Link, cmd: Cmd, io: Io, cuts: CloseCuts, ret: Ret)
      reads this, c, renewTask
    {
      && View() == CommandResult(cmd, ReplyOf(k.open, io)).0
      && ret == (if View().Resting? && ((k.open && io.Cancelled?) || cuts.wait) then RetCancelled
                 else CommandResult(cmd, ReplyOf(k.open, io)).1)
      && c.trace == LinkAfter(k, CmdFrame(cmd), io, true).trace
      && (View().Resting? ==> closed && Bare() && !c.open)
      && (!View().Resting? ==> conn == c && !closed && c.open)
      && (View().Held? ==> KeptAlive())
      && (View().Waiting? ==> renewTask == null && lease == 0)
    }

    /** The exception that leaves the operation after its close. */
    function RaisedBy(cancelled: bool, raised: bool, otherwise: Ret): Ret {
      if raised || cancelled then RetCancelled else otherwise
    }

    method InvokeAcquire(io: Io, cuts: CloseCuts) returns (ret: Ret)
      requires conn != null && token.None? && lease == 0 && renewTask == null && !closed
      modifies this, conn
      ensures Invoked(old(conn), old(conn.Value()), CmdAcquire, io, cuts, ret)
    {
      var cancelled := conn.open && io.Cancelled?;
      var r := conn.Command(Session.Acquire, io);
      if r.None? || !r.value.Granted? {
        var raised := CloseUnlocked(cuts);
        return RaisedBy(cancelled, raised, if r == Some(TimedOut) then RetFalse else RetRaised);
      }
      token, lease := Some(r.value.token), r.value.lease;
      StartRenew();
      return RetTrue;
    }

    method InvokeEnqueue(io: Io, cuts: CloseCuts) returns (ret: Ret)
      requires conn != null && token.None? && lease == 0 && renewTask == null && !closed
      modifies this, conn
      ensures Invoked(old(conn), old(conn.Value()), CmdEnqueue, io, cuts, ret)
    {
      var cancelled := conn.open && io.Cancelled?;
      var r := conn.Command(Session.Enqueue, io);
      if r.None? || !(r.value.Granted? || r.value.Queued?) {
        var raised := CloseUnlocked(cuts);
        return RaisedBy(cancelled, raised, RetRaised);
      }
      if r.value.Granted? {
        token, lease := Some(r.value.token), r.value.lease;
        StartRenew();
        return RetAcquired;
      }
      return RetQueued;
    }

    method InvokeWait(io: Io, cuts: CloseCuts) returns (ret: Ret)
      requires conn != null && token.None? && lease == 0 && renewTask == null && !closed
      modifies this, conn
      ensures Invoked(old(conn), old(conn.Value()), CmdWait, io, cuts, ret)
    {
      var cancelled := conn.open && io.Cancelled?;
      var r := conn.Command(Session.Wait, io);
      if r.None? || !r.value.Granted? {
        var raised := CloseUnlocked(cuts);
        return RaisedBy(cancelled, raised, if r == Some(TimedOut) then RetFalse else RetRaised);
      }
      token, lease := Some(r.value.token), r.value.lease;
      StartRenew();
      return RetTrue;
    }

    // ----- public calls

    lemma Settled(c: AsyncConn, op: Op, a: Attempt, cuts: CloseCuts, ret: Ret)
      requires AllDecoded(a) && a.dialled && (a.auth.Some? ==> a.auth.value == Replied(Done))
      requires Invoked(c, Link(true, Greeting(a)), CmdOf(op), a.command, cuts, ret)
      ensures Valid() && View() == AttemptResult(op, a).0
      ensures ret == if View().Resting? && (a.command.Cancelled? || cuts.wait) then RetCancelled else AttemptResult(op, a).1
      ensures View().Resting? ==> Bare()
      ensures View().Held? ==> KeptAlive()
      ensures conn != null ==> conn == c && conn.trace == AttemptTrace(op, a)
    {
      AttemptPhase(op, a, c.trace);
    }

    method Acquire(a: Attempt, cuts: AttemptCuts) returns (ret: Ret)
      requires Valid() && AllDecoded(a)
      modifies this, renewTask, conn
      ensures Valid()
      ensures cuts == NO_ATTEMPT_CUTS && Uncancelled(a) ==> (View(), ret) == AttemptResult(OpAcquire, a)
      ensures !old(Orphans(cuts)) ==>
        ret == if Interrupted(OpAcquire, a, cuts, old(conn) != null) then RetCancelled else AttemptResult(OpAcquire, a).1
      ensures cuts == NO_ATTEMPT_CUTS && Uncancelled(a) ==>
        && (ret == RetTrue <==> Connected(a) && Grants(a.command))
        && (ret == RetFalse <==> Connected(a) && a.command == Replied(TimedOut))
        && (ret == RetTrue || ret == RetFalse || ret == RetRaised)
      ensures ret == RetTrue ==> token.Some? && a.command == Replied(Granted(token.value, lease))
      ensures ret == RetFalse ==> a.command == Replied(TimedOut)
      ensures ret == RetTrue ==> (View(), ret) == AttemptResult(OpAcquire, a) && KeptAlive()
      ensures ret == RetTrue ==> conn != null && fresh(conn) && conn.trace == AttemptTrace(OpAcquire, a)
      ensures ret != RetTrue && !old(Orphans(cuts)) ==> Bare()
      ensures old(Orphans(cuts)) ==> ret == RetCancelled && View() == old(View()) && conn == old(conn) && renewTask == null
      ensures old(conn) != null && !old(Orphans(cuts)) ==> old(conn).Value() == Link(false, old(conn.trace))
    {
      var raised := ResetForNewAttempt(cuts);
      if raised {
        return RetCancelled;
      }
      ret := OpenAndAuthenticate(a, cuts);
      if !ret.RetUnit? {
        return;
      }
      ghost var c := conn;
      ret := InvokeAcquire(a.command, cuts.after);
      Settled(c, OpAcquire, a, cuts.after, ret);
      AttemptMeans(OpAcquire, a);
    }

    method Enqueue(a: Attempt, cuts: AttemptCuts) returns (ret: Ret)
      requires Valid() && AllDecoded(a)
      modifies this, renewTask, conn
      ensures Valid()
      ensures cuts == NO_ATTEMPT_CUTS && Uncancelled(a) ==> (View(), ret) == AttemptResult(OpEnqueue, a)
      ensures !old(Orphans(cuts)) ==>
        ret == if Interrupted(OpEnqueue, a, cuts, old(conn) != null) then RetCancelled else AttemptResult(OpEnqueue, a).1
      ensures cuts == NO_ATTEMPT_CUTS && Uncancelled(a) ==>
        && (ret == RetAcquired <==> Connected(a) && Grants(a.command))
        && (ret == RetQueued <==> Connected(a) && a.command == Replied(Queued))
        && (ret == RetAcquired || ret == RetQueued || ret == RetRaised)
      ensures ret == RetAcquired ==> token.Some? && a.command == Replied(Granted(token.value, lease))
      ensures ret == RetQueued ==> conn != null && token.None? && a.command == Replied(Queued)
      ensures ret == RetAcquired || ret == RetQueued ==> (View(), ret) == AttemptResult(OpEnqueue, a)
      ensures ret == RetAcquired || ret == RetQueued ==> conn != null && fresh(conn) && conn.trace == AttemptTrace(OpEnqueue, a)
      ensures ret == RetAcquired ==> KeptAlive()
      ensures ret != RetAcquired && ret != RetQueued && !old(Orphans(cuts)) ==> Bare()
      ensures old(Orphans(cuts)) ==> ret == RetCancelled && View() == old(View()) && conn == old(conn) && renewTask == null
      ensures old(conn) != null && !old(Orphans(cuts)) ==> old(conn).Value() == Link(false, old(conn.trace))
    {
      var raised := ResetForNewAttempt(cuts);
      if raised {
        return RetCancelled;
      }
      ret := OpenAndAuthenticate(a, cuts);
      if !ret.RetUnit? {
        return;
      }
      ghost var c := conn;
      ret := InvokeEnqueue(a.command, cuts.after);
      Settled(c, OpEnqueue, a, cuts.after, ret);
      AttemptMeans(OpEnqueue, a);
    }

    method Wait(io: Io, cuts: CloseCuts) returns (ret: Ret)
      requires Valid() && Decoded(io)
      modifies this, conn
      ensures Valid() && View() == WaitResult(old(View()), old(Wire()).open, io).0
      ensures ret == RetCancelled || ret == WaitResult(old(View()), old(Wire()).open, io).1
      ensures ret == RetCancelled <==> old(View()).Waiting? && View().Resting? && ((old(Wire()).open && io.Cancelled?) || cuts.wait)
      ensures old(token).Some? ==> ret == RetTrue && token == old(token) && lease == old(lease)
      ensures old(token).None? ==> (ret == RetTrue <==> old(Wire()).open && Grants(io))
      ensures old(token).None? && ret == RetTrue ==> token.Some? && io == Replied(Granted(token.value, lease)) && KeptAlive()
      ensures ret == RetFalse ==> old(token).None? && old(Wire()).open && io == Replied(TimedOut)
      ensures ret == RetRaised ==> !(old(token).None? && old(Wire()).open && io == Replied(TimedOut))
      ensures ret == RetTrue || ret == RetFalse || ret == RetRaised || ret == RetCancelled
      ensures conn != null ==> conn == old(conn)
      ensures old(conn) != null ==>
        old(conn).trace == (if old(token).Some? then old(conn.trace) else LinkAfter(old(Wire()), Session.Wait, io, true).trace)
    {
      if token.Some? {
        return RetTrue;
      }
      if conn == null {
        return RetRaised;
      }
      if io.Replied? { ExchangePhase(conn.trace, Session.Wait, io.reply); }
      ret := InvokeWait(io, cuts);
      WaitMeans(Waiting, old(Wire()).open, io);
    }

    method SendReleaseQuietly(io: Io) returns (released: bool)
      modifies conn
      ensures released <==> old(conn) != null && token.Some? && ReplyOf(old(Wire()).open, io) == Some(Done)
      ensures conn != null ==>
        conn.Value() == (if token.Some? then LinkAfter(old(Wire()), Session.Release(token.value), io, true) else old(Wire()))
    {
      if conn == null || token.None? {
        return false;
      }
      var r := conn.Command(Session.Release(token.value), io);
      return r == Some(Done);
    }

    /** Whatever is cancelled, and wherever, nothing is left: the finally clause closes. */
    method Release(io: Io, cuts: ReleaseCuts) returns (ret: Ret)
      requires Valid()
      modifies this, renewTask, conn
      ensures Valid() && closed && Bare()
      ensures old(conn) != null ==> !old(conn).open
      ensures old(KeptAlive()) ==> old(renewTask).cancelled
      ensures ret == RetCancelled || ret == ReleaseResult(old(View()), old(Wire()).open, io)
      ensures ret == RetCancelled <==>
        || cuts.lock || (cuts.task && old(MustWait())) || (cuts.close.wait && old(conn) != null)
        || (old(token).Some? && old(Wire()).open && io.Cancelled?)
      ensures ret == RetTrue ==> old(token).Some?
      ensures ret == RetTrue ==> old(conn).trace == old(conn.trace) + [Sent(Session.Release(old(token.value))), Got(Done)]
      ensures old(conn) != null ==>
        old(conn).trace == (if old(token).Some? && !cuts.lock && !(cuts.task && old(MustWait()))
          then LinkAfter(old(Wire()), Session.Release(old(token.value)), io, true).trace else old(conn.trace))
    {
      var released := false;
      var raised := cuts.lock;
      if !raised {
        raised := CancelRenew(cuts.task);
        if !raised {
          raised := conn != null && token.Some? && conn.open && io.Cancelled?;
          released := SendReleaseQuietly(io);
        }
      }
      var closing := CloseUnlocked(cuts.close);
      return if raised || closing then RetCancelled else if released then RetTrue else RetFalse;
    }

    method Aclose(cuts: CloseCuts) returns (ret: Ret)
      requires Valid()
      modifies this, renewTask, conn
      ensures Valid() && closed && Bare()
      ensures old(conn) != null ==> old(conn).Value() == Link(false, old(conn.trace))
      ensures old(KeptAlive()) ==> old(renewTask).cancelled
      ensures ret == if (cuts.task && old(MustWait())) || (cuts.wait && old(conn) != null) then RetCancelled else RetUnit
    {
      var raised := CloseUnlocked(cuts);
      return if raised then RetCancelled else RetUnit;
    }

    // ----- the renew task

    method HandleRenewFailure(c: AsyncConn)
      modifies this`conn, this`token, this`lease, c
      ensures !closed && old(conn) == c ==> conn == null && token.None? && lease == 0 && c.Value() == Link(false, old(c.trace))
      ensures closed || old(conn) != c ==> conn == old(conn) && token == old(token) && lease == old(lease) && c.Value() == old(c.Value())
    {
      if closed {
        return;
      }
      if conn == c {
        conn := null;
        ClearHeldState();
        c.CloseNowait();
      }
    }

    /** One tick; a cancelled one closes the transport at most, and ends the task. */
    method RenewTick(io: Io) returns (remaining: Option<int>)
      requires Valid() && Decoded(io)
      modifies this`conn, this`token, this`lease, conn
      ensures Valid() && (conn != null ==> conn == old(conn))
      ensures closed || old(token).None? ==> remaining.None? && View() == old(View()) && Wire() == old(Wire())
      ensures !closed && old(token).Some? ==>
        old(conn).trace == if old(conn.open) then TraceAfter(old(conn.trace), Session.Renew(old(token.value)), io) else old(conn.trace)
      ensures remaining.Some? ==> old(token).Some? && View() == old(View())
      ensures remaining.Some? ==>
        old(conn).trace == old(conn.trace) + [Sent(Session.Renew(old(token.value))), Got(Renewed(remaining.value))]
      ensures !closed ==> (View(), remaining) == TickResult(old(View()), old(Wire()).open, io)
      ensures remaining.Some? ==> 0 <= remaining.value <= MAX_PROTOCOL_SECONDS && conn != null && conn.open == old(conn.open)
    {
      if closed || conn == null || token.None? {
        return None;
      }
      var c, t := conn, token.value;
      if io.Replied? { ExchangePhase(c.trace, Session.Renew(t), io.reply); }
      var wasOpen := c.open;
      var r := c.Command(Session.Renew(t), io);
      if r.Some? && r.value.Renewed? {
        return Some(r.value.remaining);
      }
      if wasOpen && io.Cancelled? {
        return None;
      }
      HandleRenewFailure(c);
      return None;
    }

    method UpdateLease(remaining: int)
      requires Valid() && remaining <= MAX_PROTOCOL_SECONDS
      modifies this`lease
      ensures Valid() && View() == Updated(old(View()), remaining)
      ensures lease == if remaining > 0 && token.Some? && !closed then remaining else old(lease)
    {
      if remaining > 0 && token.Some? && !closed {
        lease := remaining;
      }
    }

    /** What a renew loop with this result leaves behind. */
    ghost predicate LoopLeaves(l: Loop, sleeps: seq<real>, taken: seq<Turn>)
      reads this
    {
      View() == l.view && taken == l.taken && sleeps == l.sleeps
    }

    ghost function LoopBegin(ratio: real): Loop
      reads this, conn
    {
      LoopStart(View(), Wire().trace, lease, ratio)
    }

    /**
     _renew_loop_body over the turns it takes while nobody else acts; a cancelled sleep or tick ends
     it. Every report is one exchange on the wire.
     */
    method RenewLoopBody(ratio: real, turns: seq<TurnIo>) returns (sleeps: seq<real>, taken: seq<Turn>)
      requires Valid() && !closed
      requires forall i :: 0 <= i < |turns| && turns[i].Tick? ==> Decoded(turns[i].io) && !turns[i].stopped
      modifies this`conn, this`token, this`lease, conn
      ensures Valid() && LoopLeaves(LoopResult(old(LoopBegin(ratio)), ratio, old(Wire()).open, turns, |turns|), sleeps, taken)
      ensures sleeps == Sleeps(old(lease), ratio, taken)
      ensures old(conn) != null ==> old(conn).trace == LoopResult(old(LoopBegin(ratio)), ratio, old(Wire()).open, turns, |turns|).wire
    {
      ghost var start, open := LoopBegin(ratio), Wire().open;
      LoopSleeps(View(), Wire().trace, lease, ratio, open, turns, |turns|);
      var interval := RenewInterval(lease, ratio);
      sleeps, taken := [interval], [];
      var i := 0;
      while i < |turns|
        invariant i <= |turns| && Valid() && !closed
        invariant conn == old(conn) && Wire().open == open
        invariant LoopResult(start, ratio, open, turns, i) == Loop(View(), Wire().trace, taken, sleeps, true)
      {
        if turns[i].Wakes? {
          taken := taken + [Woken];
          LoopEnded(start, ratio, open, turns, i + 1, |turns|);
          return;
        }
        var remaining := RenewTick(turns[i].io);
        taken := taken + [Ticked(remaining, false)];
        if remaining.None? {
          LoopEnded(start, ratio, open, turns, i + 1, |turns|);
          return;
        }
        interval := RenewInterval(remaining.value, ratio);
        UpdateLease(remaining.value);
        sleeps := sleeps + [interval];
        i := i + 1;
      }
    }
  }
}
