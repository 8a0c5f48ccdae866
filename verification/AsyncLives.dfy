/** Whole lives of a fresh asynchronous instance without a cancellation, for every token and every lease in range. */
module AsyncLives {
  import opened Basics
  import opened Session
  import opened Lifecycle
  import opened AsyncMachine
  import opened Runs

  predicate Uncut(s: State, l: Label) { Enabled(s, l) && !l.Cancelled? }

  /** t can be reached from s without a cancellation of the user operation. */
  ghost predicate Leads(s: State, t: State) {
    exists labels :: Legal(Uncut, Step, s, labels) && After(s, labels) == t
  }

  lemma Stay(s: State)
    ensures Leads(s, s)
  {
    assert Legal(Uncut, Step, s, []) && After(s, []) == s;
  }

  /** One step further. */
  lemma Take(r: State, s: State, l: Label) returns (t: State)
    requires Leads(r, s) && Uncut(s, l)
    ensures t == Next(s, l) && Leads(r, t)
  {
    t := Next(s, l);
    var labels :| Legal(Uncut, Step, r, labels) && After(r, labels) == s;
    Extend(Uncut, Step, r, labels, l);
    assert Legal(Uncut, Step, r, labels + [l]) && After(r, labels + [l]) == t;
  }

  predicate InRange(n: int) { 1 <= n <= MAX_PROTOCOL_SECONDS }

  /** Granted t for n seconds on connection 0, with a new renew task. */
  predicate HoldsFirst(s: State, trace: seq<Event>, t: Token, n: int) {
    s == INITIAL.(conn := Some(0), token := Some(t), lease := n, task := Some(0), tasks := [TaskState(TNew, false)],
                  conns := [Conn(true, trace, Holding(t))], last := RetTrue)
  }

  /** A fresh instance begins its first attempt. */
  lemma BeginFirst(op: Op) returns (s: State)
    ensures Leads(INITIAL, s) && s == INITIAL.(user := Opening(op))
  {
    Stay(INITIAL);
    s := Take(INITIAL, INITIAL, Call(if op == OpAcquire then ApiAcquire else ApiEnqueue, true));
  }

  /** Dialled, with the auth frame on the wire. */
  lemma AuthFirst(op: Op) returns (s: State)
    ensures Leads(INITIAL, s) && s == INITIAL.(conns := [Conn(true, [Sent(Auth)], AuthSent)], user := Authing(op, 0))
  {
    var s1 := BeginFirst(op);
    s := Take(INITIAL, s1, Opened(true, true));
    assert [] + [Sent(Auth)] == [Sent(Auth)];
  }

  lemma AskFirst() returns (s: State)
    ensures Leads(INITIAL, s)
    ensures s == INITIAL.(conn := Some(0), user := Asking(CmdAcquire, 0),
                          conns := [Conn(true, [Sent(Auth), Got(Done), Sent(Acquire)], AcquireSent)])
  {
    var s1 := AuthFirst(OpAcquire);
    s := Take(INITIAL, s1, Heard(Done, true));
    assert [Sent(Auth)] + [Got(Done)] + [Sent(Acquire)] == [Sent(Auth), Got(Done), Sent(Acquire)];
  }

  lemma FirstAcquire(t: Token, n: int) returns (s: State)
    requires InRange(n)
    ensures Leads(INITIAL, s) && HoldsFirst(s, [Sent(Auth), Got(Done), Sent(Acquire), Got(Granted(t, n))], t, n)
  {
    var s1 := AskFirst();
    s := Take(INITIAL, s1, Heard(Granted(t, n), true));
    assert [Sent(Auth), Got(Done), Sent(Acquire)] + [Got(Granted(t, n))] == [Sent(Auth), Got(Done), Sent(Acquire), Got(Granted(t, n))];
  }

  /** The task sleeps, and asks for a renewal. */
  lemma AsksOnce(s: State, trace: seq<Event>, t: Token, n: int) returns (u: State)
    requires HoldsFirst(s, trace, t, n)
    ensures Leads(s, u)
    ensures u == s.(io := Some(Task(0)), tasks := [TaskState(TRenew(0, t), false)],
                    conns := [Conn(true, trace + [Sent(Renew(t))], RenewSent(t))])
  {
    Stay(s);
    var s1 := Take(s, s, TaskStep(0, Begun));
    var s2 := Take(s, s1, TaskStep(0, Elapsed));
    u := Take(s, s2, TaskStep(0, Locked(true)));
  }

  /** It stores what it is told. */
  lemma RenewsOnce(s: State, trace: seq<Event>, t: Token, n: int, m: int) returns (u: State)
    requires HoldsFirst(s, trace, t, n) && InRange(m)
    ensures Leads(s, u)
    ensures u == s.(lease := m, tasks := [TaskState(TSleep, false)],
                    conns := [Conn(true, trace + [Sent(Renew(t)), Got(Renewed(m))], Holding(t))])
  {
    var s1 := AsksOnce(s, trace, t, n);
    u := Take(s, s1, TaskStep(0, TaskHeard(Renewed(m))));
    assert trace + [Sent(Renew(t))] + [Got(Renewed(m))] == trace + [Sent(Renew(t)), Got(Renewed(m))];
  }

  /** A release cancels the sleeping task, waits for it, and sends its frame. */
  lemma AsksRelease(s: State, trace: seq<Event>, t: Token) returns (u: State)
    requires s.user.Idle? && s.conn == Some(0) && s.token == Some(t) && s.task == Some(0) && s.io.None?
    requires s.tasks == [TaskState(TSleep, false)] && s.conns == [Conn(true, trace, Holding(t))]
    ensures Leads(s, u)
    ensures u == s.(user := Releasing(0, t), io := Some(User), task := None, tasks := [TaskState(TDone, true)],
                    conns := [Conn(true, trace + [Sent(Release(t))], ReleaseSent)])
  {
    var s1 := CancelsTask(s);
    var s2 := Take(s, s1, TaskStep(0, Cancel));
    u := Take(s, s2, Resumed(true));
  }

  lemma CancelsTask(s: State) returns (u: State)
    requires s.user.Idle? && s.task == Some(0) && s.io.None? && s.tasks == [TaskState(TSleep, false)]
    ensures Leads(s, u)
    ensures u == s.(user := RelTask(0), io := Some(User), task := None, tasks := [TaskState(TSleep, true)])
  {
    Stay(s);
    var s1 := Take(s, s, Call(ApiRelease, true));
    u := Take(s, s1, Resumed(true));
  }

  /** A confirmed release closes, and waits for the transport. */
  lemma HearsDone(s: State, trace: seq<Event>, t: Token) returns (u: State)
    requires s.user == Releasing(0, t) && s.conn == Some(0) && s.token == Some(t) && s.task.None? && !s.closed
    requires s.conns == [Conn(true, trace, ReleaseSent)]
    ensures Leads(s, u)
    ensures u == s.(user := CloseConn(Leave(RetTrue), 0), io := None, conn := None, token := None, lease := 0, closed := true, orphaned := false,
                    conns := [Conn(false, trace + [Got(Done)], Over)])
  {
    Stay(s);
    u := Take(s, s, Heard(Done, true));
  }

  /** Then it returns. */
  lemma Confirmed(s: State, trace: seq<Event>, t: Token) returns (u: State)
    requires s.user == Releasing(0, t) && s.conn == Some(0) && s.token == Some(t) && s.task.None? && !s.closed
    requires s.conns == [Conn(true, trace, ReleaseSent)]
    ensures Leads(s, u)
    ensures u == s.(user := Idle, last := RetTrue, io := None, conn := None, token := None, lease := 0, closed := true, orphaned := false,
                    conns := [Conn(false, trace + [Got(Done)], Over)])
  {
    var s1 := HearsDone(s, trace, t);
    u := Take(s, s1, Resumed(true));
  }

  lemma Releases(s: State, trace: seq<Event>, t: Token) returns (u: State)
    requires s.user.Idle? && s.conn == Some(0) && s.token == Some(t) && s.task == Some(0) && s.io.None? && !s.closed
    requires s.tasks == [TaskState(TSleep, false)] && s.conns == [Conn(true, trace, Holding(t))]
    ensures Leads(s, u) && u.user.Idle? && u.last == RetTrue && u.token.None? && u.lease == 0 && u.conn.None? && u.closed && u.task.None?
    ensures u.conns == [Conn(false, trace + [Sent(Release(t)), Got(Done)], Over)]
  {
    var s1 := AsksRelease(s, trace, t);
    u := Confirmed(s1, trace + [Sent(Release(t))], t);
    Join(s, s1, u);
    assert trace + [Sent(Release(t))] + [Got(Done)] == trace + [Sent(Release(t)), Got(Done)];
  }

  lemma Join(r: State, s: State, t: State)
    requires Leads(r, s) && Leads(s, t)
    ensures Leads(r, t)
  {
    var a :| Legal(Uncut, Step, r, a) && After(r, a) == s;
    var b :| Legal(Uncut, Step, s, b) && After(s, b) == t;
    Concat(Uncut, Step, r, a, b);
    assert Legal(Uncut, Step, r, a + b) && After(r, a + b) == t;
  }

  /** The connection of a whole life. */
  function LifeTrace(t: Token, n: int, m: int): seq<Event> {
    [Sent(Auth), Got(Done), Sent(Acquire), Got(Granted(t, n)), Sent(Renew(t)), Got(Renewed(m)), Sent(Release(t)), Got(Done)]
  }

  /**
   acquire with auth returns true holding t for n seconds; a renew stores the m seconds it is told; release
   returns true, with nothing held and the connection closed.
   */
  lemma WholeLife(t: Token, n: int, m: int) returns (a: State, b: State, c: State)
    requires InRange(n) && InRange(m)
    ensures Leads(INITIAL, a) && a.user.Idle? && a.last == RetTrue && a.token == Some(t) && a.lease == n && a.conn == Some(0)
    ensures Leads(a, b) && b.user.Idle? && b.token == Some(t) && b.lease == m && b.conn == Some(0)
    ensures Leads(b, c) && c.user.Idle? && c.last == RetTrue && c.token.None? && c.lease == 0 && c.conn.None? && c.closed && c.task.None?
    ensures c.conns == [Conn(false, LifeTrace(t, n, m), Over)]
  {
    var asked := [Sent(Auth), Got(Done), Sent(Acquire), Got(Granted(t, n))];
    a := FirstAcquire(t, n);
    b := RenewsOnce(a, asked, t, n, m);
    var talk := asked + [Sent(Renew(t)), Got(Renewed(m))];
    c := Releases(b, talk, t);
    assert talk + [Sent(Release(t)), Got(Done)] == LifeTrace(t, n, m);
  }

  lemma AskQueue() returns (s: State)
    ensures Leads(INITIAL, s)
    ensures s == INITIAL.(conn := Some(0), conns := [Conn(true, [Sent(Enqueue)], EnqueueSent)], user := Asking(CmdEnqueue, 0))
  {
    var s1 := BeginFirst(OpEnqueue);
    s := Take(INITIAL, s1, Opened(false, true));
    assert [] + [Sent(Enqueue)] == [Sent(Enqueue)];
  }

  lemma Queue() returns (s: State)
    ensures Leads(INITIAL, s)
    ensures s == INITIAL.(conn := Some(0), last := RetQueued, conns := [Conn(true, [Sent(Enqueue), Got(Queued)], InQueue)])
  {
    var s1 := AskQueue();
    s := Take(INITIAL, s1, Heard(Queued, true));
    assert [Sent(Enqueue)] + [Got(Queued)] == [Sent(Enqueue), Got(Queued)];
  }

  lemma AskWait(s: State) returns (u: State)
    requires s == INITIAL.(conn := Some(0), last := RetQueued, conns := [Conn(true, [Sent(Enqueue), Got(Queued)], InQueue)])
    ensures Leads(s, u)
    ensures u == s.(conns := [Conn(true, [Sent(Enqueue), Got(Queued), Sent(Frame.Wait)], WaitSent)], user := Asking(CmdWait, 0))
  {
    Stay(s);
    u := Take(s, s, Call(ApiWait, true));
    assert [Sent(Enqueue), Got(Queued)] + [Sent(Frame.Wait)] == [Sent(Enqueue), Got(Queued), Sent(Frame.Wait)];
  }

  /** enqueue returns "queued", and a wait on the same connection returns true holding t for n seconds. */
  lemma QueuedLife(t: Token, n: int) returns (a: State, b: State)
    requires InRange(n)
    ensures Leads(INITIAL, a) && a.user.Idle? && a.last == RetQueued && a.token.None? && a.conn == Some(0) && a.task.None?
    ensures Leads(a, b) && HoldsFirst(b, [Sent(Enqueue), Got(Queued), Sent(Frame.Wait), Got(Granted(t, n))], t, n)
  {
    a := Queue();
    var s1 := AskWait(a);
    b := Take(a, s1, Heard(Granted(t, n), true));
    assert [Sent(Enqueue), Got(Queued), Sent(Frame.Wait)] + [Got(Granted(t, n))]
        == [Sent(Enqueue), Got(Queued), Sent(Frame.Wait), Got(Granted(t, n))];
  }
}
