/** Continuations of a run without any slip and without giving up a join, and the ways they can take. */
module SyncPaths {
  import opened Basics
  import opened Session
  import opened Lifecycle
  import opened SyncMachine
  import opened Runs
  import opened SyncRuns
  import opened SyncInvariant

  predicate Neat(s: State, l: Label) { Enabled(s, l) && !Slip(s, l) && !l.UGaveUp? }

  function Neatly(): (State, Label) -> bool { (s, l) => Neat(s, l) }

  /** t can be reached from s without a slip and without giving up a join. */
  ghost predicate Leads(s: State, t: State) {
    exists labels :: Legal(Neatly(), Step, s, labels) && After(s, labels) == t
  }

  // ----- walking along runs

  lemma Stay(s: State)
    ensures Leads(s, s)
  {
    assert Legal(Neatly(), Step, s, []) && After(s, []) == s;
  }

  /** One step further. */
  lemma Take(r: State, s: State, l: Label) returns (t: State)
    requires Leads(r, s) && Neat(s, l)
    ensures t == Next(s, l) && Leads(r, t)
  {
    t := Next(s, l);
    var labels :| Legal(Neatly(), Step, r, labels) && After(r, labels) == s;
    Extend(Neatly(), Step, r, labels, l);
    assert Legal(Neatly(), Step, r, labels + [l]) && After(r, labels + [l]) == t;
  }

  lemma Join(r: State, s: State, t: State)
    requires Leads(r, s) && Leads(s, t)
    ensures Leads(r, t)
  {
    var a :| Legal(Neatly(), Step, r, a) && After(r, a) == s;
    var b :| Legal(Neatly(), Step, s, b) && After(s, b) == t;
    Concat(Neatly(), Step, r, a, b);
    assert Legal(Neatly(), Step, r, a + b) && After(r, a + b) == t;
  }

  /** A continuation adds no slip of any kind. */
  lemma LedOn(s: State, t: State, w: Without)
    requires Reachable(s, w) && Leads(s, t)
    ensures Reachable(t, w)
  {
    var a :| Possible(INITIAL, a, w) && After(INITIAL, a) == s;
    var b :| Legal(Neatly(), Step, s, b) && After(s, b) == t;
    Relax(Neatly(), Allowed(w), Step, s, b);
    Concat(Allowed(w), Step, INITIAL, a, b);
    assert Possible(INITIAL, a + b, w) && After(INITIAL, a + b) == t;
  }

  lemma StepOn(s: State, l: Label, w: Without)
    requires Reachable(s, w) && Enabled(s, l) && Avoids(s, l, w)
    ensures Reachable(Next(s, l), w)
  {
    var a :| Possible(INITIAL, a, w) && After(INITIAL, a) == s;
    Extend(Allowed(w), Step, INITIAL, a, l);
    assert Possible(INITIAL, a + [l], w) && After(INITIAL, a + [l]) == Next(s, l);
  }

  // ----- to a new grant

  lemma RearmPath(s: State, op: Op) returns (t: State)
    requires s.user == Rearming(RearmFlag, op)
    ensures Leads(s, t) && t == s.(closed := false, attempt := s.attempt + 1, user := Opening(Dial, op))
  {
    Stay(s);
    var s1 := Take(s, s, UGo);
    t := Take(s, s1, UGo);
  }

  lemma DialPath(s: State, op: Op) returns (t: State)
    requires s.user == Opening(Dial, op)
    ensures Leads(s, t)
    ensures t == s.(conns := s.conns + [Conn(true, false, None, [], Fresh)], user := Opening(Adopt(|s.conns|), op))
  {
    Stay(s);
    var s1 := Take(s, s, UDialOk);
    t := Take(s, s1, UNoAuth);
  }

  lemma AdoptPath(s: State, op: Op, c: nat) returns (t: State)
    requires s.user == Opening(Adopt(c), op)
    ensures Leads(s, t) && t == s.(conn := Some(c), user := Invoke(CmdSend(c), CmdOf(op)))
  {
    Stay(s);
    var s1 := Take(s, s, UGo);
    t := Take(s, s1, UGo);
  }

  /** The connection after a command and its reply. */
  function Exchanged(k: Conn, f: Frame, r: Reply): Conn { Emit(Emit(k, Sent(f)), Got(r)).(busy := None) }

  /** A command of the user is sent and answered with a grant. */
  lemma CommandPath(s: State, c: nat, cmd: Cmd, tok: Token, lease: int) returns (t: State)
    requires s.user == Invoke(CmdSend(c), cmd) && c < |s.conns| && Writable(s, c) && 1 <= lease <= MAX_PROTOCOL_SECONDS
    ensures Leads(s, t)
    ensures t == s.(conns := s.conns[c := Exchanged(s.conns[c], CmdFrame(cmd), Granted(tok, lease))],
                    user := Grant(PutTok(tok, lease), cmd))
  {
    Stay(s);
    var s1 := Take(s, s, USendOk);
    t := Take(s, s1, UHeard(Granted(tok, lease)));
  }

  lemma PutPath(s: State, cmd: Cmd, tok: Token, lease: int) returns (t: State)
    requires s.user == Grant(PutTok(tok, lease), cmd)
    ensures Leads(s, t) && t == s.(token := Some(tok), lease := lease, user := Grant(Start, cmd))
  {
    Stay(s);
    var s1 := Take(s, s, UGo);
    t := Take(s, s1, UGo);
  }

  lemma StartPath(s: State, cmd: Cmd) returns (t: State)
    requires s.user == Grant(Start, cmd)
    ensures Leads(s, t)
    ensures t == s.(workers := s.workers + [WorkerState(s.attempt, WInit)], thread := Some(|s.workers|), user := Idle, last := GrantRet(cmd))
  {
    Stay(s);
    var s1 := Take(s, s, UGo);
    t := Take(s, s1, UGo);
  }

  lemma GrantPath(s: State, op: Op, tok: Token, lease: int) returns (t: State)
    requires s.user == Rearming(RearmFlag, op) && 1 <= lease <= MAX_PROTOCOL_SECONDS
    ensures Leads(s, t)
    ensures t == s.(closed := false, attempt := s.attempt + 1, conn := Some(|s.conns|), token := Some(tok), lease := lease,
                    conns := s.conns + [Exchanged(Conn(true, false, None, [], Fresh), CmdFrame(CmdOf(op)), Granted(tok, lease))],
                    user := Grant(Start, CmdOf(op)))
  {
    var r := RearmPath(s, op);
    var a := DialPath(r, op);
    var d := AdoptPath(a, op, |s.conns|);
    var m := CommandPath(d, |s.conns|, CmdOf(op), tok, lease);
    t := PutPath(m, CmdOf(op), tok, lease);
    Join(s, r, a);
    Join(s, a, d);
    Join(s, d, m);
    Join(s, m, t);
  }

  lemma IdlePath(s: State) returns (t: State)
    requires s.user.Idle? && s.closed && s.thread.None?
    ensures Leads(s, t) && t == s.(user := Rearming(RearmFlag, OpAcquire))
  {
    Stay(s);
    var s1 := Take(s, s, Call(ApiAcquire));
    var s2 := Take(s, s1, UGo);
    t := Take(s, s2, UGo);
  }

  /** The last step of a close has been taken: the state is the one that close leaves for what follows it. */
  predicate Finished(s: State, th: Then) { s.closed && s.thread.None? && s.conn.None? && s == AfterClose(s, th) }

  /** From a finished close to the start of the next attempt. */
  lemma AfterClosePath(s: State, th: Then) returns (t: State, op: Op)
    requires Finished(s, th)
    ensures Leads(s, t) && t == s.(user := Rearming(RearmFlag, op))
  {
    if th.Rearm? {
      op := th.op;
      t := s;
      Stay(s);
    } else {
      op := OpAcquire;
      t := IdlePath(s);
    }
  }

  // ----- to the end of a close

  /** The end of close once the join is over. */
  lemma ClearRest(s: State, th: Then) returns (t: State)
    requires s.user == Clear(ClrThread, th)
    ensures Leads(s, t) && t == AfterClose(s.(thread := None, token := None, lease := 0), th)
  {
    Stay(s);
    var s1 := Take(s, s, UGo);
    var s2 := Take(s, s1, UGo);
    t := Take(s, s2, UGo);
  }

  /** The same when there is no thread to join. */
  lemma ClearPath(s: State, th: Then) returns (t: State)
    requires s.user == Clear(ClrRead, th) && s.thread.None?
    ensures Leads(s, t) && t == AfterClose(s.(token := None, lease := 0), th)
  {
    Stay(s);
    var s1 := Take(s, s, UGo);
    var s2 := Take(s, s1, UGo);
    t := Take(s, s2, UGo);
  }

  lemma FlagPath(s: State, th: Then) returns (t: State)
    requires s.user == Cls(ClsCheck, th) && !s.closed
    ensures Leads(s, t) && t == s.(closed := true, raised := s.raised + {s.attempt}, user := Shut(ShutRead, th))
  {
    Stay(s);
    var s1 := Take(s, s, UGo);
    var s2 := Take(s, s1, UGo);
    t := Take(s, s2, UGo);
  }

  lemma ShutPath(s: State, th: Then, c: nat) returns (t: State)
    requires s.user == Shut(ShutRead, th) && s.conn == Some(c) && c < |s.conns|
    ensures Leads(s, t) && t == s.(conns := s.conns[c := s.conns[c].(shut := true)], user := Shut(ShutLock(c), th))
  {
    Stay(s);
    var s1 := Take(s, s, UGo);
    t := Take(s, s1, UGo);
  }

  /** The part of close under and just after the I/O lock. */
  lemma LockedPath(s: State, th: Then, c: nat) returns (t: State)
    requires s.user == Shut(ShutLock(c), th) && s.io.None? && c < |s.conns|
    ensures Leads(s, t)
    ensures t == s.(io := Some(User), conns := s.conns[c := s.conns[c].(open := false)], user := Shut(ShutUnlock(c), th))
  {
    Stay(s);
    var s1 := Take(s, s, UGo);
    t := Take(s, s1, UGo);
  }

  lemma DetachPath(s: State, th: Then, c: nat) returns (t: State)
    requires s.user == Shut(ShutUnlock(c), th)
    ensures Leads(s, t) && t == s.(io := None, conn := None, user := Clear(ClrRead, th))
  {
    Stay(s);
    var s1 := Take(s, s, UGo);
    t := Take(s, s1, UGo);
  }

  /** From the check of the closed flag to the join. */
  lemma BeginClosePath(s: State, th: Then, c: nat) returns (t: State)
    requires s.user == Cls(ClsCheck, th) && !s.closed && s.conn == Some(c) && c < |s.conns| && s.io.None?
    ensures Leads(s, t)
    ensures t == s.(closed := true, raised := s.raised + {s.attempt}, conn := None,
                    conns := s.conns[c := s.conns[c].(shut := true, open := false)], user := Clear(ClrRead, th))
  {
    var s1 := FlagPath(s, th);
    var s2 := ShutPath(s1, th, c);
    var s3 := LockedPath(s2, th, c);
    t := DetachPath(s3, th, c);
    Join(s, s1, s2);
    Join(s, s2, s3);
    Join(s, s3, t);
  }

  lemma ClosePath(s: State, th: Then) returns (t: State)
    requires s.user == Cls(ClsCheck, th) && !s.closed && s.conn.Some? && s.conn.value < |s.conns|
    requires s.io.None? && s.thread.None?
    ensures Leads(s, t) && Finished(t, th)
    ensures t.workers == s.workers && t.attempt == s.attempt && t.io == s.io && t.raised == s.raised + {s.attempt}
  {
    var s1 := BeginClosePath(s, th, s.conn.value);
    t := ClearPath(s1, th);
    Join(s, s1, t);
  }

  /** A release up to its frame. */
  lemma AskReleasePath(s: State) returns (t: State)
    requires s.user == Rel(RelLock) && s.io.None? && s.conn.Some? && s.token.Some?
    ensures Leads(s, t) && t == s.(io := Some(User), user := Rel(RelSend(s.conn.value, s.token.value)))
  {
    Stay(s);
    var s1 := Take(s, s, UGo);
    var s2 := Take(s, s1, UGo);
    t := Take(s, s2, UGo);
  }

  /** A release whose frame cannot be sent, up to its close. */
  lemma ReleasePath(s: State) returns (t: State)
    requires s.user == Rel(RelLock) && s.io.None? && s.conn.Some? && s.token.Some?
    ensures Leads(s, t) && t == s.(user := Cls(ClsCheck, Released(false)))
  {
    var s1 := AskReleasePath(s);
    var s2 := Take(s, s1, USendFail(false));
    t := Take(s, s2, UGo);
  }

  /** From the end of _stop_renew to a finished close. */
  lemma StopPath(s: State, k: Kind) returns (t: State, th: Then)
    requires s.user == Stop(StopClear, k) && s.io.None? && !s.closed
    requires s.conn.Some? && s.conn.value < |s.conns| && s.token.Some?
    ensures Leads(s, t) && Finished(t, th)
    ensures t.workers == s.workers && t.attempt == s.attempt && t.io == s.io && t.raised == s.raised + {s.attempt}
  {
    Stay(s);
    var s1 := Take(s, s, UGo);
    var s2 := s1;
    if k.ForRelease? {
      s2 := ReleasePath(s1);
    } else {
      Stay(s1);
    }
    th := s2.user.th;
    t := ClosePath(s2, th);
    Join(s, s1, s2);
    Join(s, s2, t);
  }

  /** A call of close() that joins a worker which has not yet begun to wait. */
  lemma JoinedClose(s: State, j: nat) returns (t: State)
    requires s.user.Idle? && !s.closed && s.io.None? && s.conn.Some? && s.conn.value < |s.conns|
    requires s.thread == Some(j) && j < |s.workers| && s.workers[j] == WorkerState(s.attempt, WInit)
    ensures Leads(s, t) && t.user.Idle? && t.closed && t.workers == s.workers[j := WorkerState(s.attempt, WDone)]
  {
    Stay(s);
    var s1 := Take(s, s, Call(ApiClose));
    var s2 := BeginClosePath(s1, Plain, s.conn.value);
    Join(s, s1, s2);
    var s3 := JoinPath(s2, j);
    Join(s, s2, s3);
    t := ClearRest(s3, Plain);
    Join(s, s3, t);
  }

  lemma JoinPath(s: State, j: nat) returns (t: State)
    requires s.user == Clear(ClrRead, Plain) && s.attempt in s.raised
    requires s.thread == Some(j) && j < |s.workers| && s.workers[j] == WorkerState(s.attempt, WInit)
    ensures Leads(s, t) && t == s.(user := Clear(ClrThread, Plain), workers := s.workers[j := WorkerState(s.attempt, WDone)])
  {
    Stay(s);
    var s1 := Take(s, s, UGo);
    var s2 := Take(s, s1, WorkerStep(j, Go));
    var s3 := Take(s, s2, WorkerStep(j, Woken));
    t := Take(s, s3, UJoined);
  }

  // ----- freeing the I/O lock

  /** Steps left of a stale worker before it frees the I/O lock. */
  function TickRank(p: TickPc): nat {
    match p
    case Check(ChkClosed) => 4
    case Check(_) => 3
    case Failing(p) => if p.FailLease? then 3 else 2
    case Unlock(_) => 1
    case _ => 2
  }

  /** What a stale worker leaves alone while it frees the I/O lock. */
  predicate SameBut(s: State, t: State, j: nat) {
    && t == s.(lease := t.lease, io := t.io, conns := t.conns, workers := t.workers)
    && |t.conns| == |s.conns| && |t.workers| == |s.workers|
    && (forall k :: 0 <= k < |s.workers| && k != j ==> t.workers[k] == s.workers[k])
  }

  lemma {:induction false} Drain(s: State, j: nat) returns (t: State)
    requires j < |s.workers| && s.workers[j].pc.Tick? && StalePc(s.workers[j].pc) && s.workers[j].ev in s.raised
    ensures Leads(s, t) && t.io.None? && SameBut(s, t, j)
    decreases TickRank(s.workers[j].pc.tp)
  {
    Stay(s);
    var u := Take(s, s, WorkerStep(j, Go));
    if s.workers[j].pc.tp.Unlock? {
      t := u;
    } else {
      t := Drain(u, j);
      Join(s, u, t);
    }
  }

  /** The I/O lock can be freed without moving worker i, if the others are stale. */
  lemma FreeLock(s: State, i: nat) returns (t: State)
    requires Locking(s) && s.io != Some(User) && i < |s.workers| && !s.workers[i].pc.Tick?
    requires forall j :: 0 <= j < |s.workers| && j != i ==> StalePc(s.workers[j].pc) && s.workers[j].ev in s.raised
    ensures t == s.(lease := t.lease, io := None, conns := t.conns, workers := t.workers) && |t.conns| == |s.conns|
    ensures |t.workers| == |s.workers| && t.workers[i] == s.workers[i] && Leads(s, t)
  {
    if s.io.None? {
      t := s;
      Stay(s);
    } else {
      t := Drain(s, s.io.value.id);
    }
  }
}
