/** Runs of a fresh instance that show where the code falls short, step by step. */
module SyncWitness {
  import opened Basics
  import opened Session
  import opened Lifecycle
  import opened SyncMachine
  import opened SyncRuns
  import opened SyncPaths
  import opened SyncInvariant
  import opened SyncTheorems
  import opened SyncSlip
  import opened SyncSlipKinds

  // ----- a first acquire, and its renew failing

  /** A fresh instance closes before its first attempt. */
  lemma FirstClose() returns (t: State)
    ensures Leads(INITIAL, t) && t == INITIAL.(closed := true, raised := {0}, user := Clear(ClrRead, Rearm(OpAcquire)))
  {
    Stay(INITIAL);
    var s1 := Take(INITIAL, INITIAL, Call(ApiAcquire));
    var s2 := Take(INITIAL, s1, UGo);
    var s3 := FlagPath(s2, Rearm(OpAcquire));
    Join(INITIAL, s2, s3);
    t := Take(INITIAL, s3, UGo);
  }

  /** The connection of an acquire without auth that was granted "t" for a second. */
  const GRANTED: Conn := Exchanged(Conn(true, false, None, [], Fresh), Acquire, Granted("t", 1))

  lemma FirstGrant() returns (t: State)
    ensures Leads(INITIAL, t)
    ensures t == INITIAL.(attempt := 1, raised := {0}, conn := Some(0), token := Some("t"), lease := 1, conns := [GRANTED],
                          user := Grant(Start, CmdAcquire))
  {
    var s1 := FirstClose();
    var s2 := ClearPath(s1, Rearm(OpAcquire));
    Join(INITIAL, s1, s2);
    t := GrantPath(s2, OpAcquire, "t", 1);
    Join(INITIAL, s2, t);
  }

  /** The first acquire has returned, and its worker is about to send a renew. */
  lemma FirstRenew() returns (t: State)
    ensures Leads(INITIAL, t)
    ensures t == INITIAL.(attempt := 1, raised := {0}, conn := Some(0), token := Some("t"), lease := 1, conns := [GRANTED],
                          thread := Some(0), io := Some(Worker(0)), last := RetTrue,
                          workers := [WorkerState(1, Tick(Renewing(RenewSend(0, "t"))))])
  {
    var g := FirstGrant();
    var s1 := StartPath(g, CmdAcquire);
    Join(INITIAL, g, s1);
    var s2 := TickPath(s1, 0);
    Join(INITIAL, s1, s2);
    t := CheckPath(s2, 0, 0, "t");
    Join(INITIAL, s2, t);
  }

  lemma BrokenRenew(s: State, l: Label) returns (t: State)
    requires |s.workers| == 1 && s.workers[0].pc.Tick? && s.workers[0].pc.tp.Renewing? && s.workers[0].pc.tp.np.c == 0
    requires (l == WorkerStep(0, IoFail) || l == WorkerStep(0, SendFail(false))) && Enabled(s, l)
    ensures Leads(s, t)
    ensures t == s.(conns := t.conns, workers := [s.workers[0].(pc := Tick(Failing(FailChk(0))))]) && |t.conns| == |s.conns|
  {
    Stay(s);
    t := Take(s, s, l);
  }

  /** The renew fails and its handler clears the connection field. */
  lemma FailingRenew(s: State, l: Label) returns (t: State)
    requires |s.workers| == 1 && s.workers[0].pc.Tick? && s.workers[0].pc.tp.Renewing? && s.workers[0].pc.tp.np.c == 0
    requires (l == WorkerStep(0, IoFail) || l == WorkerStep(0, SendFail(false))) && Enabled(s, l) && s.conn == Some(0)
    ensures Leads(s, t)
    ensures t == s.(conn := None, conns := t.conns, workers := [s.workers[0].(pc := Tick(Failing(FailTok(0))))]) && |t.conns| == |s.conns|
  {
    var s1 := BrokenRenew(s, l);
    var s2 := Take(s, s1, WorkerStep(0, Go));
    t := Take(s, s2, WorkerStep(0, Go));
  }

  /**
   A wait returns true on an instance at rest, in a run without any slip: the failure handler has
   cleared the connection field and not yet the token.
   */
  lemma WaitAtRest() returns (t: State)
    ensures Leads(INITIAL, t) && t.user.WaitTok? && HalfLost(t) && Enabled(t, UGo)
    ensures Next(t, UGo).user.Idle? && Next(t, UGo).last == RetTrue && LifeOf(Next(t, UGo)) == AtRest
  {
    var r := FirstRenew();
    var f := FailingRenew(r, WorkerStep(0, SendFail(false)));
    Join(INITIAL, r, f);
    t := Take(INITIAL, f, Call(ApiWait));
  }

  // ----- two acquires with one abandoned join

  lemma SentRenew(s: State) returns (t: State)
    requires |s.conns| == 1 && Writable(s, 0) && s.workers == [WorkerState(1, Tick(Renewing(RenewSend(0, "t"))))]
    ensures Leads(s, t) && t == s.(conns := t.conns, workers := [WorkerState(1, Tick(Renewing(RenewRecv(0, "t"))))]) && |t.conns| == 1
  {
    Stay(s);
    t := Take(s, s, WorkerStep(0, SendOk));
  }

  /** The renew is sent; a second acquire sets the stop event and joins. */
  lemma JoinWhileRenewing(s: State) returns (t: State)
    requires s.user.Idle? && s.thread == Some(0) && |s.conns| == 1 && Writable(s, 0)
    requires s.workers == [WorkerState(1, Tick(Renewing(RenewSend(0, "t"))))] && s.attempt == 1
    ensures Leads(s, t)
    ensures t == s.(user := Stop(StopJoin(0), ForReset(OpAcquire)), raised := s.raised + {1}, conns := t.conns,
                    workers := [WorkerState(1, Tick(Renewing(RenewRecv(0, "t"))))]) && |t.conns| == 1
  {
    var s1 := SentRenew(s);
    var s2 := Take(s, s1, Call(ApiAcquire));
    var s3 := Take(s, s2, UGo);
    t := Take(s, s3, UGo);
  }

  /** As far as the join. */
  lemma UpToJoin() returns (a: State)
    ensures Leads(INITIAL, a)
    ensures a == INITIAL.(attempt := 1, raised := {0, 1}, conn := Some(0), token := Some("t"), lease := 1, conns := a.conns,
                          thread := Some(0), io := Some(Worker(0)), last := RetTrue, user := Stop(StopJoin(0), ForReset(OpAcquire)),
                          workers := [WorkerState(1, Tick(Renewing(RenewRecv(0, "t"))))]) && |a.conns| == 1
  {
    var r := FirstRenew();
    a := JoinWhileRenewing(r);
    Join(INITIAL, r, a);
  }

  /** The reset that gave up the join overtakes the handler. */
  lemma Overtake(s: State) returns (t: State)
    requires s.user == Stop(StopClear, ForReset(OpAcquire)) && !s.closed && s.conn.None? && s.io == Some(Worker(0))
    requires s.workers == [WorkerState(1, Tick(Failing(FailTok(0))))]
    ensures Leads(s, t) && TokenSlip(t, UGo)
    ensures t == s.(thread := None, closed := true, raised := s.raised + {s.attempt}, user := Shut(ShutRead, Rearm(OpAcquire)))
  {
    Stay(s);
    var s1 := Take(s, s, UGo);
    t := FlagPath(s1, Rearm(OpAcquire));
    Join(s, s1, t);
  }

  /**
   The join is given up on a worker that waits for the answer to its renew, and the new attempt overtakes
   that worker's handler.
   */
  lemma AbandonedJoin() returns (a: State, b: State)
    ensures Leads(INITIAL, a) && Enabled(a, UGaveUp) && AwaitsRenew(PcAt(a, JoinedThread(a.user))) && !Slip(a, UGaveUp)
    ensures Leads(Next(a, UGaveUp), b) && TokenSlip(b, UGo)
    ensures b == INITIAL.(attempt := 1, raised := {0, 1}, closed := true, token := Some("t"), lease := 1, conns := b.conns,
                          io := Some(Worker(0)), last := RetTrue, user := Shut(ShutRead, Rearm(OpAcquire)),
                          workers := [WorkerState(1, Tick(Failing(FailTok(0))))]) && |b.conns| == 1
  {
    a := UpToJoin();
    var left := Next(a, UGaveUp);
    var f := FailingRenew(left, WorkerStep(0, IoFail));
    b := Overtake(f);
    Join(left, f, b);
  }

  /**
   Isolation is false of the code even if a join only ever gives up on a worker that is
   blocked inside its renew command: here is such a run of two acquires.
   */
  lemma IsolationFails() returns (a: State, b: State)
    ensures Leads(INITIAL, a) && Enabled(a, UGaveUp) && AwaitsRenew(PcAt(a, JoinedThread(a.user))) && !Slip(a, UGaveUp)
    ensures Leads(Next(a, UGaveUp), b) && Enabled(b, UGo) && TokenSlip(b, UGo) && Ahead(Next(b, UGo), TokenExposed)
  {
    a, b := AbandonedJoin();
    AbandonedReachable(a, b);
    TokenSlipIsExact(b, UGo);
  }

  lemma AbandonedReachable(a: State, b: State)
    requires Leads(INITIAL, a) && Enabled(a, UGaveUp) && !Slip(a, UGaveUp) && Leads(Next(a, UGaveUp), b)
    ensures Reachable(b, TOKEN_SLIPS)
  {
    assert Possible(INITIAL, [], TOKEN_SLIPS) && After(INITIAL, []) == INITIAL;
    LedOn(INITIAL, a, TOKEN_SLIPS);
    StepOn(a, UGaveUp, TOKEN_SLIPS);
    LedOn(Next(a, UGaveUp), b, TOKEN_SLIPS);
  }

  /** The overtaking attempt is granted "t" on a second connection. */
  lemma OvertakingGrant(s: State) returns (t: State)
    requires s.user == Clear(ClrRead, Rearm(OpAcquire)) && s.thread.None? && |s.conns| == 1
    ensures Leads(s, t)
    ensures t == s.(closed := false, attempt := s.attempt + 1, conn := Some(1), token := Some("t"), lease := 1,
                    conns := s.conns + [GRANTED], user := Grant(Start, CmdAcquire))
  {
    var u := ClearPath(s, Rearm(OpAcquire));
    t := GrantPath(u, OpAcquire, "t", 1);
    Join(s, u, t);
  }

  /** The handler left behind clears that token, and the acquire returns true. */
  lemma RobbedAcquire(s: State) returns (t: State)
    requires s.user == Grant(Start, CmdAcquire) && s.workers == [WorkerState(1, Tick(Failing(FailTok(0))))]
    ensures Leads(s, t) && t.conns == s.conns && t.user.Idle? && t.last == RetTrue && t.token.None? && t.conn == s.conn
  {
    Stay(s);
    var u := Take(s, s, WorkerStep(0, Go));
    t := StartPath(u, CmdAcquire);
    Join(s, u, t);
  }

  lemma NoSession()
    ensures Run([Sent(Acquire), Got(Granted("t", 1)), Sent(Frame.Wait), Got(Granted("u", 1))]) == Bad
  {
    var asked := [Sent(Acquire)];
    RunAppend([], Sent(Acquire));
    RunAppend(asked, Got(Granted("t", 1)));
    RunAppend(asked + [Got(Granted("t", 1))], Sent(Frame.Wait));
    RunAppend(asked + [Got(Granted("t", 1))] + [Sent(Frame.Wait)], Got(Granted("u", 1)));
    assert [] + [Sent(Acquire)] == asked;
    assert asked + [Got(Granted("t", 1))] + [Sent(Frame.Wait)] + [Got(Granted("u", 1))]
        == [Sent(Acquire), Got(Granted("t", 1)), Sent(Frame.Wait), Got(Granted("u", 1))];
  }

  lemma TwoGrants()
    ensures Exchanged(GRANTED, Frame.Wait, Granted("u", 1)).trace
         == [Sent(Acquire), Got(Granted("t", 1)), Sent(Frame.Wait), Got(Granted("u", 1))]
  {
  }

  /**
   The same run goes on to break the session grammar: the acquire has returned true with its token
   gone, so a wait on the instance sends "w" on a connection that already carries a grant.
   */
  lemma SessionFails() returns (a: State, b: State, t: State)
    ensures Leads(INITIAL, a) && Enabled(a, UGaveUp) && AwaitsRenew(PcAt(a, JoinedThread(a.user))) && !Slip(a, UGaveUp)
    ensures Leads(Next(a, UGaveUp), b) && Enabled(b, UGo) && TokenSlip(b, UGo) && Leads(Next(b, UGo), t)
    ensures |t.conns| == 2 && t.conns[1].trace == [Sent(Acquire), Got(Granted("t", 1)), Sent(Frame.Wait), Got(Granted("u", 1))]
    ensures Run(t.conns[1].trace) == Bad
  {
    a, b := AbandonedJoin();
    var n := Next(b, UGo);
    var g := OvertakingGrant(n);
    var r := RobbedAcquire(g);
    Join(n, g, r);
    t := SecondPath(r, 1);
    Join(n, r, t);
    TwoGrants();
    NoSession();
  }
}
