/** The kinds of slip one by one: what a token slip, a lease slip and an update slip can bring about, and what only they can. */
module SyncSlipKinds {
  import opened Basics
  import opened Session
  import opened Lifecycle
  import opened SyncMachine
  import opened SyncRuns
  import opened SyncPaths
  import opened SyncInvariant
  import opened SyncTheorems
  import opened SyncLease
  import opened SyncSlip

  // ----- a worker that has yet to clear the token, beside a new grant

  /** Its next step is that of an earlier attempt, and takes the new token away without any cause the abstract machine knows. */
  lemma TakesToken(s: State, i: nat, pc: WorkerPc)
    requires Beside(s, i, pc, 1) && AtToken(pc)
    ensures StaleTake(s, WorkerStep(i, Go)) && Misstep(s, WorkerStep(i, Go)) && OldHandler(s)
  {
  }

  /** The new attempt lost its token, its worker is started, and it has returned. */
  predicate Robbed(s: State, i: nat, n: nat) {
    && s.user.Idle? && s.conn.Some? && s.conn.value < |s.conns| && Writable(s, s.conn.value)
    && ConnAt(s, s.conn.value).phase == Holding("t") && s.token.None? && !s.closed && s.attempt !in s.raised
    && i < n && |s.workers| == n + 1 && s.workers[n] == WorkerState(s.attempt, WInit)
    && AtLease(s.workers[i].pc) && s.workers[i].pc.tp.fp.c < s.conn.value && s.io == Some(Worker(i))
  }

  lemma RobPath(s: State, i: nat, pc: WorkerPc) returns (t: State)
    requires Beside(s, i, pc, 1) && AtToken(pc)
    ensures Leads(s, t) && t == s.(token := None, workers := s.workers[i := s.workers[i].(pc := Tick(Failing(FailLease(pc.tp.fp.c))))])
  {
    Stay(s);
    t := Take(s, s, WorkerStep(i, Go));
  }

  /** The attempt returns its grant although the token is gone. */
  lemma ReturnsRobbed(s: State, cmd: Cmd)
    requires s.user == Grant(Start, cmd) && s.token.None? && s.conn.Some? && s.conn.value < |s.conns|
    requires ConnAt(s, s.conn.value).phase == Holding("t")
    ensures Ahead(s, Misleading)
  {
    Stay(s);
    var t := Take(s, s, UGo);
    assert FalseReturn(t, UGo);
    Here(s, t, Misleading);
  }

  lemma RobbedPath(s: State, i: nat, pc: WorkerPc) returns (t: State)
    requires Beside(s, i, pc, 1) && AtToken(pc)
    ensures Leads(s, t) && Robbed(t, i, |s.workers|) && Ahead(s, Misleading)
  {
    var u := RobPath(s, i, pc);
    ReturnsRobbed(u, s.user.cmd);
    Later(s, u, Misleading);
    t := StartPath(u, s.user.cmd);
    Join(s, u, t);
  }

  // ----- a second grant on the same connection

  lemma WaitPath(s: State, c: nat) returns (t: State)
    requires s.user.Idle? && s.token.None? && s.conn == Some(c)
    ensures Leads(s, t) && t == s.(user := Invoke(CmdSend(c), CmdWait))
  {
    Stay(s);
    var s1 := Take(s, s, Call(ApiWait));
    var s2 := Take(s, s1, UGo);
    t := Take(s, s2, UGo);
  }

  /** Granted twice: the wait that found no token was answered with another one, and has returned. */
  predicate Twice(s: State, i: nat, n: nat) {
    && s.user.Idle? && s.conn.Some? && s.conn.value < |s.conns| && Writable(s, s.conn.value)
    && ConnAt(s, s.conn.value).phase == Bad && s.token == Some("u") && !s.closed && s.attempt !in s.raised
    && i < n && |s.workers| == n + 2 && s.workers[n] == WorkerState(s.attempt, WInit)
    && s.workers[n + 1] == WorkerState(s.attempt, WInit) && s.thread == Some(n + 1)
  }

  /** The state after a wait that was granted "u". */
  function SecondGrant(s: State, c: nat): State
    requires c < |s.conns|
  {
    s.(conns := s.conns[c := Exchanged(s.conns[c], Frame.Wait, Granted("u", 1))], token := Some("u"), lease := 1,
       workers := s.workers + [WorkerState(s.attempt, WInit)], thread := Some(|s.workers|), user := Idle, last := RetTrue)
  }

  lemma SecondPath(s: State, c: nat) returns (t: State)
    requires s.user.Idle? && s.token.None? && s.conn == Some(c) && c < |s.conns| && Writable(s, c)
    ensures Leads(s, t) && t == SecondGrant(s, c)
  {
    var s1 := WaitPath(s, c);
    var s2 := CommandPath(s1, c, CmdWait, "u", 1);
    Join(s, s1, s2);
    var s3 := PutPath(s2, CmdWait, "u", 1);
    Join(s, s2, s3);
    t := StartPath(s3, CmdWait);
    Join(s, s3, t);
  }

  lemma SecondTwice(s: State, i: nat, n: nat)
    requires Robbed(s, i, n)
    ensures Twice(SecondGrant(s, s.conn.value), i, n)
  {
  }

  /** The worker left behind clears the lease of the second grant. */
  lemma LosesLease(s: State, i: nat, n: nat) returns (t: State)
    requires Twice(s, i, n) && AtLease(s.workers[i].pc)
    ensures Leads(s, t) && LeaseLost(t)
    ensures t == s.(lease := 0, workers := s.workers[i := s.workers[i].(pc := Tick(Failing(FailClose(s.workers[i].pc.tp.fp.c))))])
  {
    Stay(s);
    t := Take(s, s, WorkerStep(i, Go));
  }

  /** It closes its connection and frees the I/O lock. */
  lemma LeavesLock(s: State, i: nat, n: nat, d: nat) returns (t: State)
    requires Twice(s, i, n) && s.workers[i].pc == Tick(Failing(FailClose(d))) && d < s.conn.value
    ensures Leads(s, t) && Twice(t, i, n) && t.io.None?
  {
    Stay(s);
    var s1 := Take(s, s, WorkerStep(i, Go));
    t := Take(s, s1, WorkerStep(i, Go));
  }

  // ----- a worker that nobody joins reports a lease

  /** The first of the two workers goes to its tick. */
  lemma TickPath(s: State, n: nat) returns (t: State)
    requires n < |s.workers| && s.workers[n].pc.WInit? && s.io.None? && !s.closed && s.workers[n].ev !in s.raised
    ensures Leads(s, t)
    ensures t == s.(io := Some(Worker(n)), workers := s.workers[n := s.workers[n].(pc := Tick(Check(ChkStop)))])
  {
    Stay(s);
    var s1 := Take(s, s, WorkerStep(n, Go));
    var s2 := Take(s, s1, WorkerStep(n, Elapsed));
    var s3 := Take(s, s2, WorkerStep(n, Go));
    t := Take(s, s3, WorkerStep(n, Go));
  }

  lemma CheckPath(s: State, n: nat, c: nat, tok: Token) returns (t: State)
    requires n < |s.workers| && s.workers[n].pc == Tick(Check(ChkStop)) && s.workers[n].ev !in s.raised
    requires s.conn == Some(c) && s.token == Some(tok)
    ensures Leads(s, t) && t == s.(workers := s.workers[n := s.workers[n].(pc := Tick(Renewing(RenewSend(c, tok))))])
  {
    Stay(s);
    var s1 := Take(s, s, WorkerStep(n, Go));
    var s2 := Take(s, s1, WorkerStep(n, Go));
    t := Take(s, s2, WorkerStep(n, Go));
  }

  lemma AskPath(s: State, n: nat, c: nat, tok: Token) returns (t: State)
    requires n < |s.workers| && s.workers[n].pc == Tick(Renewing(RenewSend(c, tok))) && c < |s.conns| && Writable(s, c)
    ensures Leads(s, t)
    ensures t == s.(conns := s.conns[c := Emit(s.conns[c], Sent(Renew(tok))).(busy := Some(Worker(n)))],
                    workers := s.workers[n := s.workers[n].(pc := Tick(Renewing(RenewRecv(c, tok))))])
  {
    Stay(s);
    t := Take(s, s, WorkerStep(n, SendOk));
  }

  lemma ReportPath(s: State, n: nat, c: nat, tok: Token, seconds: int) returns (t: State)
    requires 0 < seconds <= MAX_PROTOCOL_SECONDS
    requires n < |s.workers| && s.workers[n].pc == Tick(Renewing(RenewSend(c, tok))) && c < |s.conns| && Writable(s, c)
    ensures Leads(s, t)
    ensures t == s.(conns := s.conns[c := Exchanged(s.conns[c], Renew(tok), Renewed(seconds))],
                    workers := s.workers[n := s.workers[n].(pc := Tick(Unlock(Some(seconds))))])
  {
    var s1 := AskPath(s, n, c, tok);
    t := Take(s, s1, WorkerStep(n, Heard(Renewed(seconds))));
  }

  lemma UpdatePath(s: State, n: nat, seconds: int) returns (t: State)
    requires n < |s.workers| && s.workers[n].pc == Tick(Unlock(Some(seconds))) && s.workers[n].ev !in s.raised && seconds > 0
    ensures Leads(s, t) && t == s.(io := None, workers := s.workers[n := s.workers[n].(pc := Updating(UpdTok, seconds))])
  {
    Stay(s);
    var s1 := Take(s, s, WorkerStep(n, Go));
    t := Take(s, s1, WorkerStep(n, Go));
  }

  /** A call of close() joins the instance's thread only; the other worker writes the lease afterwards. */
  lemma WritesAfterClose(s: State, i: nat, j: nat)
    requires s.user.Idle? && !s.closed && s.io.None? && s.conn.Some? && s.conn.value < |s.conns|
    requires s.thread == Some(j) && j < |s.workers| && s.workers[j] == WorkerState(s.attempt, WInit)
    requires i < |s.workers| && i != j && s.workers[i].pc.Updating? && s.workers[i].pc.up.UpdWrite? && s.workers[i].pc.rem != 0
    ensures Ahead(s, LeaseLeft)
  {
    var t := JoinedClose(s, j);
    var u := Take(s, t, WorkerStep(i, Go));
    Here(s, u, LeaseLeft);
  }

  lemma UnjoinedUpdates(s: State, i: nat, n: nat)
    requires Twice(s, i, n) && s.io.None?
    ensures Ahead(s, LeaseLeft)
  {
    var c := s.conn.value;
    var s1 := TickPath(s, n);
    var s2 := CheckPath(s1, n, c, "u");
    var s3 := ReportPath(s2, n, c, "u", 1);
    var s4 := UpdatePath(s3, n, 1);
    var s5 := UpdateGoesOn(s4, n);
    WritesAfterClose(s5, n, n + 1);
    Later(s4, s5, LeaseLeft);
    Later(s3, s4, LeaseLeft);
    Later(s2, s3, LeaseLeft);
    Later(s1, s2, LeaseLeft);
    Later(s, s1, LeaseLeft);
  }

  // ----- token slips

  /** All that a token slip makes possible while the instance goes through its next attempt. */
  ghost predicate AllBroken(s: State) {
    && Ahead(s, SessionBroken) && Ahead(s, TokenExposed) && Ahead(s, OldHandler) && Ahead(s, TwoLive) && Ahead(s, Incoherent)
    && Ahead(s, OffTrack) && Ahead(s, Misleading) && Ahead(s, LeaseLost) && Ahead(s, LeaseLeft)
  }

  lemma TwiceBroken(s: State, i: nat, n: nat)
    requires Twice(s, i, n) && PhasesTrue(s)
    ensures SessionBroken(s) && TwoLive(s) && (s.io.None? ==> Incoherent(s))
  {
    assert s.conns[s.conn.value].phase == Run(s.conns[s.conn.value].trace);
    assert Live(s, n) && Live(s, n + 1);
  }

  lemma SecondGrantBreaks(s: State, i: nat, n: nat)
    requires Robbed(s, i, n) && Reachable(s, NOTHING)
    ensures Ahead(s, SessionBroken) && Ahead(s, TwoLive) && Ahead(s, Incoherent) && Ahead(s, LeaseLost) && Ahead(s, LeaseLeft)
  {
    var t := SecondPath(s, s.conn.value);
    SecondTwice(s, i, n);
    LedOn(s, t, NOTHING);
    ReachablePhases(t);
    TwiceBroken(t, i, n);
    Here(s, t, SessionBroken);
    Here(s, t, TwoLive);
    LeaseAndLockBreak(t, i, n);
    Later(s, t, Incoherent);
    Later(s, t, LeaseLost);
    Later(s, t, LeaseLeft);
  }

  lemma LeaseAndLockBreak(s: State, i: nat, n: nat)
    requires Twice(s, i, n) && Reachable(s, NOTHING) && AtLease(s.workers[i].pc) && s.workers[i].pc.tp.fp.c < s.conn.value
    ensures Ahead(s, Incoherent) && Ahead(s, LeaseLost) && Ahead(s, LeaseLeft)
  {
    var t := LosesLease(s, i, n);
    Here(s, t, LeaseLost);
    var u := LeavesLock(t, i, n, s.workers[i].pc.tp.fp.c);
    Join(s, t, u);
    LedOn(s, u, NOTHING);
    ReachablePhases(u);
    TwiceBroken(u, i, n);
    Here(s, u, Incoherent);
    UnjoinedUpdates(u, i, n);
    Later(s, u, LeaseLeft);
  }

  /** After a token slip all of this can happen. */
  lemma TokenSlipBreaks(s: State, l: Label)
    requires Reachable(s, TOKEN_SLIPS) && Enabled(s, l) && TokenSlip(s, l)
    ensures AllBroken(Next(s, l))
  {
    ReachableInv(s);
    var n := Next(s, l);
    var g := Overtaken(s, l, 1);
    BesideBroken(s, l, g);
    Later(n, g, SessionBroken);
    Later(n, g, TokenExposed);
    Later(n, g, OldHandler);
    Later(n, g, TwoLive);
    Later(n, g, Incoherent);
    Later(n, g, OffTrack);
    Later(n, g, Misleading);
    Later(n, g, LeaseLost);
    Later(n, g, LeaseLeft);
  }

  lemma BesideBroken(s: State, l: Label, g: State)
    requires Reachable(s, TOKEN_SLIPS) && Enabled(s, l) && TokenSlip(s, l) && Leads(Next(s, l), g)
    requires Beside(g, Straggler(s, l), PcAt(s, Straggler(s, l)), 1)
    ensures AllBroken(g)
  {
    var i := Straggler(s, l);
    var pc := PcAt(s, i);
    Stay(g);
    TakesToken(g, i, pc);
    Here(g, g, TokenExposed);
    Here(g, g, OldHandler);
    Here(g, g, OffTrack);
    var h := RobbedPath(g, i, pc);
    Looser(s, TOKEN_SLIPS, NOTHING);
    StepOn(s, l, NOTHING);
    LedOn(Next(s, l), g, NOTHING);
    LedOn(g, h, NOTHING);
    SecondGrantBreaks(h, i, |g.workers|);
    Later(g, h, SessionBroken);
    Later(g, h, TwoLive);
    Later(g, h, Incoherent);
    Later(g, h, LeaseLost);
    Later(g, h, LeaseLeft);
  }

  /** As long as no token slip has happened none of it can be. */
  lemma NoneBroken(s: State)
    requires Reachable(s, TOKEN_SLIPS)
    ensures !SessionBroken(s) && !TokenExposed(s) && !OldHandler(s) && !TwoLive(s) && !Incoherent(s) && !OffTrack(s) && !Misleading(s)
  {
    forall c | 0 <= c < |s.conns| ensures Run(s.conns[c].trace) != Bad { EverySession(s, c); }
    forall l | OfOldAttempt(s, l) && Enabled(s, l) ensures !StaleTake(s, l) { TokenIsolation(s, l); }
    forall i | 0 <= i < |s.workers| && (Past(s.workers[i].pc) || AtToken(s.workers[i].pc)) ensures s.workers[i].ev == s.attempt {
      HandlerIsCurrent(s, i);
    }
    forall i: nat, j: nat | i < j < |s.workers| ensures !(Live(s, i) && Live(s, j)) {
      if Live(s, i) { UniqueLiveWorker(s, i); }
    }
    if s.user.Idle? && s.io.None? && s.token.Some? { HeldCoherence(s); }
    forall l | Enabled(s, l) ensures !Misstep(s, l) { StepRefines(s, l); }
    forall l | Enabled(s, l) && !l.WorkerStep? && !s.user.Idle? && Next(s, l).user.Idle? ensures !FalseReturn(s, l) { ReturnValues(s, l); }
  }

  /**
   A token slip is exactly a step after which some continuation breaks the session grammar, and
   exactly one after which an old worker can write connection or token or use the wire, a stale
   worker can be inside a tick, two workers can be live, the held state can be incoherent, a
   step can be none of the abstract machine, and a call can return a value that is not true.
   */
  lemma TokenSlipIsExact(s: State, l: Label)
    requires Reachable(s, TOKEN_SLIPS) && Enabled(s, l)
    ensures TokenSlip(s, l) <==> Ahead(Next(s, l), SessionBroken)
    ensures TokenSlip(s, l) <==> Ahead(Next(s, l), TokenExposed)
    ensures TokenSlip(s, l) <==> Ahead(Next(s, l), OldHandler)
    ensures TokenSlip(s, l) <==> Ahead(Next(s, l), TwoLive)
    ensures TokenSlip(s, l) <==> Ahead(Next(s, l), Incoherent)
    ensures TokenSlip(s, l) <==> Ahead(Next(s, l), OffTrack)
    ensures TokenSlip(s, l) <==> Ahead(Next(s, l), Misleading)
  {
    if TokenSlip(s, l) {
      TokenSlipBreaks(s, l);
    } else {
      StepOn(s, l, TOKEN_SLIPS);
      forall t | Leads(Next(s, l), t)
        ensures !SessionBroken(t) && !TokenExposed(t) && !OldHandler(t) && !TwoLive(t) && !Incoherent(t) && !OffTrack(t) && !Misleading(t)
      {
        LedOn(Next(s, l), t, TOKEN_SLIPS);
        NoneBroken(t);
      }
    }
  }

  // ----- lease and update slips

  /** The worker left behind clears the lease of the new grant. */
  lemma BesideLoses(s: State, i: nat, pc: WorkerPc)
    requires Beside(s, i, pc, 1) && AtLease(pc)
    ensures Ahead(s, LeaseLost)
  {
    Stay(s);
    var t := Take(s, s, WorkerStep(i, Go));
    var u := StartPath(t, s.user.cmd);
    Here(t, u, LeaseLost);
    Later(s, t, LeaseLost);
  }

  lemma LeaseSlipLoses(s: State, l: Label)
    requires Inv(s) && Enabled(s, l) && LeaseSlip(s, l)
    ensures Ahead(Next(s, l), LeaseLost)
  {
    var g := Overtaken(s, l, 1);
    BesideLoses(g, Straggler(s, l), PcAt(s, Straggler(s, l)));
    Later(Next(s, l), g, LeaseLost);
  }

  /** Without token and lease slips so far, exactly these two kinds can leave a held token without a lease in range. */
  lemma LeaseLossIsExact(s: State, l: Label)
    requires Reachable(s, CLEARING_SLIPS) && Enabled(s, l)
    ensures TokenSlip(s, l) || LeaseSlip(s, l) <==> Ahead(Next(s, l), LeaseLost)
  {
    Looser(s, CLEARING_SLIPS, TOKEN_SLIPS);
    if TokenSlip(s, l) {
      TokenSlipBreaks(s, l);
    } else if LeaseSlip(s, l) {
      ReachableInv(s);
      LeaseSlipLoses(s, l);
    } else {
      StepOn(s, l, CLEARING_SLIPS);
      forall t | Leads(Next(s, l), t) ensures !LeaseLost(t) {
        LedOn(Next(s, l), t, CLEARING_SLIPS);
        if t.user.Idle? && t.token.Some? { HeldLease(t); }
      }
    }
  }

  /** The update left behind passes its checks during the next attempt and writes after the close of that. */
  lemma UpdateSlipLeaves(s: State, l: Label)
    requires Inv(s) && Enabled(s, l) && UpdateSlip(s, l) && (s.user.Stop? ==> s.conn.Some?)
    ensures Ahead(Next(s, l), LeaseLeft)
  {
    var i := Straggler(s, l);
    var g := Overtaken(s, l, 1);
    var t := UpdateGoesOn(g, i);
    var u := StartPath(t, g.user.cmd);
    assert RemainingInBounds(s.workers[i].pc);
    WritesAfterClose(u, i, |g.workers|);
    Later(t, u, LeaseLeft);
    Later(g, t, LeaseLeft);
    Later(Next(s, l), g, LeaseLeft);
  }

  /** Without token and update slips so far, exactly these two kinds can leave a lease behind in a closed instance. */
  lemma LeftLeaseIsExact(s: State, l: Label)
    requires Reachable(s, TOKEN_AND_UPDATE_SLIPS) && Enabled(s, l)
    ensures TokenSlip(s, l) || UpdateSlip(s, l) <==> Ahead(Next(s, l), LeaseLeft)
  {
    Looser(s, TOKEN_AND_UPDATE_SLIPS, TOKEN_SLIPS);
    if TokenSlip(s, l) {
      TokenSlipBreaks(s, l);
    } else if UpdateSlip(s, l) {
      ReachableZeroed(s);
      assert UpdaterOk(s, JoinedThread(s.user));
      UpdateSlipLeaves(s, l);
    } else {
      StepOn(s, l, TOKEN_AND_UPDATE_SLIPS);
      forall t | Leads(Next(s, l), t) ensures !LeaseLeft(t) {
        LedOn(Next(s, l), t, TOKEN_AND_UPDATE_SLIPS);
        if t.user.Idle? && t.closed { ClosedLease(t); }
      }
    }
  }
}
