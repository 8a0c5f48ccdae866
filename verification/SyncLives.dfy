/**
 Whole lives of a fresh synchronous instance, for every token and every lease in range: each call can come
 to the end it is for.
 */
module SyncLives {
  import opened Basics
  import opened Session
  import opened Lifecycle
  import opened SyncMachine
  import opened SyncRuns
  import opened SyncPaths
  import opened SyncInvariant
  import opened SyncLease
  import opened SyncSlip
  import opened SyncSlipKinds

  const NEW: Conn := Conn(true, false, None, [], Fresh)

  /** A fresh instance comes to its reset's close. */
  lemma ResetPath(op: Op) returns (t: State)
    ensures Leads(INITIAL, t) && t == INITIAL.(user := Cls(ClsCheck, Rearm(op)))
  {
    var api := if op == OpAcquire then ApiAcquire else ApiEnqueue;
    Stay(INITIAL);
    var s1 := Take(INITIAL, INITIAL, Call(api));
    t := Take(INITIAL, s1, UGo);
  }

  /** It makes its first attempt. */
  lemma BeginPath(op: Op) returns (t: State)
    ensures Leads(INITIAL, t) && t == INITIAL.(attempt := 1, raised := {0}, user := Opening(Dial, op))
  {
    var s1 := ResetPath(op);
    var s2 := FlagPath(s1, Rearm(op));
    Join(INITIAL, s1, s2);
    var s3 := Take(INITIAL, s2, UGo);
    t := RestOfBegin(s3, op);
    Join(INITIAL, s3, t);
  }

  lemma RestOfBegin(s: State, op: Op) returns (t: State)
    requires s == INITIAL.(closed := true, raised := {0}, user := Clear(ClrRead, Rearm(op)))
    ensures Leads(s, t) && t == INITIAL.(attempt := 1, raised := {0}, user := Opening(Dial, op))
  {
    var u := ClearPath(s, Rearm(op));
    t := RearmPath(u, op);
    Join(s, u, t);
  }

  lemma AuthSendPath(s: State, op: Op) returns (t: State)
    requires s.user == Opening(Dial, op)
    ensures Leads(s, t)
    ensures t == s.(conns := s.conns + [Emit(NEW, Sent(Auth)).(busy := Some(User))], user := Opening(AuthRecv(|s.conns|), op))
  {
    Stay(s);
    var s1 := Take(s, s, UDialOk);
    t := Take(s, s1, USendOk);
  }

  lemma AuthHeardPath(s: State, op: Op) returns (t: State)
    requires s.user == Opening(Dial, op)
    ensures Leads(s, t)
    ensures t == s.(conns := s.conns + [Exchanged(NEW, Auth, Done)], user := Opening(Adopt(|s.conns|), op))
  {
    var s1 := AuthSendPath(s, op);
    t := Take(s, s1, UHeard(Done));
  }

  /** Dialling and authenticating. */
  lemma AuthPath(s: State, op: Op) returns (t: State)
    requires s.user == Opening(Dial, op)
    ensures Leads(s, t)
    ensures t == s.(conns := s.conns + [Exchanged(NEW, Auth, Done)], conn := Some(|s.conns|), user := Invoke(CmdSend(|s.conns|), CmdOf(op)))
  {
    var s1 := AuthHeardPath(s, op);
    t := AdoptPath(s1, op, |s.conns|);
    Join(s, s1, t);
  }

  /** Granted t for n seconds on connection 0, and the call has returned. */
  predicate HoldsFirst(s: State, trace: seq<Event>, t: Token, n: int, ret: Ret) {
    && s.user.Idle? && s.last == ret && s.conn == Some(0) && s.token == Some(t) && s.lease == n && !s.closed && s.io.None?
    && s.attempt == 1 && s.raised == {0} && s.thread == Some(0) && s.workers == [WorkerState(1, WInit)]
    && |s.conns| == 1 && s.conns[0] == Conn(true, false, None, trace, Holding(t))
  }

  lemma FirstAcquire(t: Token, n: int) returns (s: State)
    requires InRange(n)
    ensures Leads(INITIAL, s) && HoldsFirst(s, [Sent(Auth), Got(Done), Sent(Acquire), Got(Granted(t, n))], t, n, RetTrue)
  {
    var s1 := BeginPath(OpAcquire);
    var s2 := AuthPath(s1, OpAcquire);
    Join(INITIAL, s1, s2);
    var s3 := CommandPath(s2, 0, CmdAcquire, t, n);
    Join(INITIAL, s2, s3);
    var s4 := PutPath(s3, CmdAcquire, t, n);
    Join(INITIAL, s3, s4);
    s := StartPath(s4, CmdAcquire);
    Join(INITIAL, s4, s);
    AcquireTalk(t, n);
  }

  lemma AcquireTalk(t: Token, n: int)
    ensures Exchanged(Exchanged(NEW, Auth, Done), Acquire, Granted(t, n)) ==
      Conn(true, false, None, [Sent(Auth), Got(Done), Sent(Acquire), Got(Granted(t, n))], Holding(t))
  {
  }

  // ----- one renewal

  /** The worker renews once and stores what it is told. */
  lemma RenewsOnce(s: State, trace: seq<Event>, t: Token, n: int, ret: Ret, m: int) returns (u: State)
    requires HoldsFirst(s, trace, t, n, ret) && InRange(m)
    ensures Leads(s, u) && u == s.(lease := m, conns := [Exchanged(s.conns[0], Renew(t), Renewed(m))], workers := [WorkerState(1, WWait)])
  {
    var s1 := TickPath(s, 0);
    var s2 := CheckPath(s1, 0, 0, t);
    Join(s, s1, s2);
    var s3 := ReportPath(s2, 0, 0, t, m);
    Join(s, s2, s3);
    u := StoresOnce(s3, m);
    Join(s, s3, u);
  }

  lemma StoresOnce(s: State, m: int) returns (u: State)
    requires s.workers == [WorkerState(1, Tick(Unlock(Some(m))))] && 1 !in s.raised && m > 0 && s.token.Some? && !s.closed
    ensures Leads(s, u) && u == s.(io := None, lease := m, workers := [WorkerState(1, WWait)])
  {
    var s1 := UpdatePath(s, 0, m);
    var s2 := UpdateGoesOn(s1, 0);
    Join(s, s1, s2);
    u := Take(s, s2, WorkerStep(0, Go));
  }

  // ----- release

  /** A release stops the waiting worker and joins it. */
  lemma StopsWorker(s: State) returns (u: State)
    requires s.user.Idle? && s.thread == Some(0) && s.workers == [WorkerState(1, WWait)] && s.attempt == 1
    ensures Leads(s, u)
    ensures u == s.(user := Stop(StopClear, ForRelease), raised := s.raised + {1}, workers := [WorkerState(1, WDone)])
  {
    var s1 := SetsEvent(s);
    var s2 := Take(s, s1, WorkerStep(0, Woken));
    u := Take(s, s2, UJoined);
  }

  lemma SetsEvent(s: State) returns (u: State)
    requires s.user.Idle? && s.thread == Some(0) && s.attempt == 1
    ensures Leads(s, u) && u == s.(user := Stop(StopJoin(0), ForRelease), raised := s.raised + {1})
  {
    Stay(s);
    var s1 := Take(s, s, Call(ApiRelease));
    var s2 := Take(s, s1, UGo);
    u := Take(s, s2, UGo);
  }

  /** It comes to its frame. */
  lemma AsksRelease(s: State, c: nat, t: Token) returns (u: State)
    requires s.user == Stop(StopClear, ForRelease) && s.io.None? && s.conn == Some(c) && s.token == Some(t)
    ensures Leads(s, u) && u == s.(thread := None, io := Some(User), user := Rel(RelSend(c, t)))
  {
    Stay(s);
    var s1 := Take(s, s, UGo);
    u := AskReleasePath(s1);
    Join(s, s1, u);
  }

  /** The frame is sent and confirmed. */
  lemma Confirmed(s: State, c: nat, t: Token) returns (u: State)
    requires s.user == Stop(StopClear, ForRelease) && s.io.None? && s.conn == Some(c) && s.token == Some(t) && c < |s.conns| && Writable(s, c)
    ensures Leads(s, u)
    ensures u == s.(thread := None, conns := s.conns[c := Exchanged(s.conns[c], Release(t), Done)], user := Cls(ClsCheck, Released(true)))
  {
    var s1 := AsksRelease(s, c, t);
    var s2 := ConfirmPath(s1, c, t);
    Join(s, s1, s2);
    u := Take(s, s2, UGo);
  }

  lemma ConfirmPath(s: State, c: nat, t: Token) returns (u: State)
    requires s.user == Rel(RelSend(c, t)) && c < |s.conns| && Writable(s, c)
    ensures Leads(s, u) && u == s.(conns := s.conns[c := Exchanged(s.conns[c], Release(t), Done)], user := Rel(RelUnlock(true)))
  {
    Stay(s);
    var s1 := Take(s, s, USendOk);
    u := Take(s, s1, UHeard(Done));
  }

  /** And the connection is closed. */
  lemma ClosesReleased(s: State, c: nat) returns (u: State)
    requires s.user == Cls(ClsCheck, Released(true)) && !s.closed && s.conn == Some(c) && c < |s.conns| && s.io.None? && s.thread.None?
    ensures Leads(s, u)
    ensures u == s.(closed := true, raised := s.raised + {s.attempt}, conn := None, token := None, lease := 0,
                    conns := s.conns[c := s.conns[c].(shut := true, open := false)], user := Idle, last := RetTrue)
  {
    var s1 := BeginClosePath(s, Released(true), c);
    u := ClearPath(s1, Released(true));
    Join(s, s1, u);
  }

  /** The connection of a whole life. */
  function LifeTrace(t: Token, n: int, m: int): seq<Event> {
    [Sent(Auth), Got(Done), Sent(Acquire), Got(Granted(t, n)), Sent(Renew(t)), Got(Renewed(m)), Sent(Release(t)), Got(Done)]
  }

  lemma LifeTalk(t: Token, n: int, m: int)
    ensures Exchanged(Exchanged(Conn(true, false, None, [Sent(Auth), Got(Done), Sent(Acquire), Got(Granted(t, n))], Holding(t)), Renew(t), Renewed(m)),
      Release(t), Done).trace == LifeTrace(t, n, m)
  {
  }

  /**
   acquire with auth returns true holding t for n seconds; a renew stores the m seconds it is told; release
   returns true, with nothing held and the connection closed. Without a slip or an abandoned join.
   */
  lemma WholeLife(t: Token, n: int, m: int) returns (a: State, b: State, c: State)
    requires InRange(n) && InRange(m)
    ensures Leads(INITIAL, a) && a.user.Idle? && a.last == RetTrue && a.token == Some(t) && a.lease == n && a.conn == Some(0)
    ensures Leads(a, b) && b.user.Idle? && b.token == Some(t) && b.lease == m && b.conn == Some(0)
    ensures Leads(b, c) && c.user.Idle? && c.last == RetTrue && c.token.None? && c.lease == 0 && c.conn.None? && c.closed && c.thread.None?
    ensures |c.conns| == 1 && c.conns[0].trace == LifeTrace(t, n, m) && !c.conns[0].open
  {
    a := FirstAcquire(t, n);
    b := RenewsOnce(a, [Sent(Auth), Got(Done), Sent(Acquire), Got(Granted(t, n))], t, n, RetTrue, m);
    var s1 := StopsWorker(b);
    var s2 := Confirmed(s1, 0, t);
    Join(b, s1, s2);
    c := ClosesReleased(s2, 0);
    Join(b, s2, c);
    LifeTalk(t, n, m);
  }

  // ----- the queue

  lemma Queue() returns (s: State)
    ensures Leads(INITIAL, s)
    ensures s == INITIAL.(attempt := 1, raised := {0}, conn := Some(0), last := RetQueued, conns := [Exchanged(NEW, Enqueue, Queued)])
  {
    var s1 := BeginPath(OpEnqueue);
    var s2 := DialPath(s1, OpEnqueue);
    Join(INITIAL, s1, s2);
    var s3 := AdoptPath(s2, OpEnqueue, 0);
    Join(INITIAL, s2, s3);
    s := QueuedPath(s3);
    Join(INITIAL, s3, s);
  }

  lemma QueuedPath(s: State) returns (t: State)
    requires s.user == Invoke(CmdSend(0), CmdEnqueue) && s.conns == [NEW]
    ensures Leads(s, t) && t == s.(conns := [Exchanged(NEW, Enqueue, Queued)], user := Idle, last := RetQueued)
  {
    Stay(s);
    var s1 := Take(s, s, USendOk);
    t := Take(s, s1, UHeard(Queued));
  }

  /** enqueue returns "queued", and a wait on the same connection returns true holding t for n seconds. */
  lemma QueuedLife(t: Token, n: int) returns (a: State, b: State)
    requires InRange(n)
    ensures Leads(INITIAL, a) && a.user.Idle? && a.last == RetQueued && a.token.None? && a.conn == Some(0) && a.thread.None?
    ensures Leads(a, b) && HoldsFirst(b, [Sent(Enqueue), Got(Queued), Sent(Frame.Wait), Got(Granted(t, n))], t, n, RetTrue)
  {
    a := Queue();
    var s1 := WaitPath(a, 0);
    var s2 := CommandPath(s1, 0, CmdWait, t, n);
    Join(a, s1, s2);
    var s3 := PutPath(s2, CmdWait, t, n);
    Join(a, s2, s3);
    b := StartPath(s3, CmdWait);
    Join(a, s3, b);
    QueueTalk(t, n);
  }

  lemma QueueTalk(t: Token, n: int)
    ensures Exchanged(Exchanged(NEW, Enqueue, Queued), Frame.Wait, Granted(t, n)) ==
      Conn(true, false, None, [Sent(Enqueue), Got(Queued), Sent(Frame.Wait), Got(Granted(t, n))], Holding(t))
  {
  }
}
