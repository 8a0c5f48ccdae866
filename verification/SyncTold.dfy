/**
 The lease field of a held instance is what the server last said: in its grant, or in a positive
 answer to a renew. In every run without slips.
 */
module SyncTold {
  import opened Basics
  import opened Session
  import opened Lifecycle
  import opened SyncMachine
  import opened SyncRuns
  import opened SyncInvariant
  import opened SyncTheorems
  import opened SyncLease
  import opened SyncReturns

  /** What the server last said on the instance's connection. */
  function ToldTo(s: State): int { if s.conn.Some? then Told(ConnAt(s, s.conn.value).trace) else 0 }

  /** A report that the worker has read and not yet stored. */
  function Unstored(pc: WorkerPc): Option<int> {
    match pc
    case Tick(Unlock(r)) => r
    case WAfter(r) => Some(r)
    case Updating(_, r) => Some(r)
    case _ => None
  }

  /** Where the instance holds what it was granted, and nothing is being taken away. */
  predicate Keeping(s: State) {
    && !s.closed && !Stopped(s) && s.conn.Some? && (s.token.Some? || Incoming(s.user).Some?)
    && (s.user.Idle? || s.user.WaitTok? || s.user.Grant?)
  }

  /** The lease is what was told, or will be once the grant or the report is stored. */
  predicate ToldOk(s: State, p: Option<WorkerPc>) {
    Keeping(s) ==>
      if s.user.Grant? && (s.user.gp.PutTok? || s.user.gp.PutLease?) then s.user.gp.lease == ToldTo(s)
      else if p.None? then s.lease == ToldTo(s)
      else if RenewFailed(p.value) then true
      else if Unstored(p.value).Some? && Unstored(p.value).value > 0 then Unstored(p.value).value == ToldTo(s)
      else s.lease == ToldTo(s)
  }

  // ----- user steps

  /** A step that leaves the held state, the talk on its connection and the place alone, or leaves the places where it is kept. */
  lemma SameTold(s: State, t: State, p: Option<WorkerPc>)
    requires ToldOk(s, p) && t.closed == s.closed && Stopped(t) == Stopped(s)
    requires t.conn == s.conn && t.token == s.token && t.lease == s.lease && ToldTo(t) == ToldTo(s)
    requires t.user == s.user || !Keeping(t) || (s.user.Idle? && t.user.WaitTok?) || (s.user.WaitTok? && t.user.Idle?)
    ensures ToldOk(t, p)
  {
  }

  lemma PutTold(s: State, p: Option<WorkerPc>)
    requires ToldOk(s, p) && s.user.Grant? && Threads(s, p) && (s.user.gp.PutTok? || s.user.gp.PutLease?)
    ensures ToldOk(GrantGo(s, s.user.gp, s.user.cmd), p)
  {
  }

  lemma StartTold(s: State)
    requires s.user.Grant? && s.user.gp.Start? && ToldOk(s, None) && (s.conn.Some? ==> s.conn.value < |s.conns|)
    ensures ToldOk(GrantGo(s, s.user.gp, s.user.cmd), Some(WNew))
  {
  }

  lemma StartedTold(s: State)
    requires s.user.Grant? && s.user.gp.Started? && ToldOk(s, Some(WNew)) && (s.conn.Some? ==> s.conn.value < |s.conns|)
    ensures ToldOk(GrantGo(s, s.user.gp, s.user.cmd), Some(WInit))
  {
  }

  /** Outside these places nothing is claimed, and a step of the user leads there only from one of them or with a grant. */
  lemma ElsewhereTold(s: State, p: Option<WorkerPc>)
    requires Joint(s, p) && UserEnabled(s, UGo) && !s.user.Grant? && !s.user.WaitTok?
    ensures ToldOk(UserGo(s), p)
  {
  }

  lemma GoTold(s: State)
    requires Inv(s) && UserEnabled(s, UGo) && ToldOk(s, Cur(s))
    ensures ToldOk(UserGo(s), Cur(UserGo(s)))
  {
    if s.user.Grant? && s.user.gp.Start? {
      StartWiring(s);
      StartTold(s);
    } else if s.user.Grant? && s.user.gp.Started? {
      StartedWiring(s);
      StartedTold(s);
    } else if !s.user.Rearming? || !s.user.ap.RearmEvent? {
      SameWorkers(s);
      if s.user.Grant? {
        PutTold(s, Cur(s));
      } else if s.user.WaitTok? {
        SameTold(s, UserGo(s), Cur(s));
      } else {
        ElsewhereTold(s, Cur(s));
      }
    }
  }

  /** Most steps of the user leave the workers alone. */
  lemma SameWorkers(s: State)
    requires UserEnabled(s, UGo) && !(s.user.Rearming? && s.user.ap.RearmEvent?)
    requires !(s.user.Grant? && (s.user.gp.Start? || s.user.gp.Started?))
    ensures UserGo(s).workers == s.workers && UserGo(s).attempt == s.attempt && Cur(UserGo(s)) == Cur(s)
  {
  }

  /** A grant that is read is what was told last. */
  lemma HeardGrantTold(s: State, r: Reply, p: Option<WorkerPc>)
    requires s.user.Invoke? && Hands(s) && AtRecv(s.user) && r.Granted?
    ensures ToldOk(UserHeard(s, r), p)
  {
    ToldAppend(ConnAt(s, CommandConn(s.user)).trace, Got(r));
  }

  /** Any other reply leads to where nothing is claimed. */
  lemma HeardElsewhere(s: State, r: Reply)
    requires Hands(s) && AtRecv(s.user) && !(s.user.Invoke? && r.Granted?)
    ensures !Keeping(UserHeard(s, r))
  {
  }

  lemma HeardTold(s: State, r: Reply)
    requires Inv(s) && UserEnabled(s, UHeard(r))
    ensures ToldOk(UserHeard(s, r), Cur(UserHeard(s, r)))
  {
    if s.user.Invoke? && r.Granted? {
      HeardGrantTold(s, r, Cur(UserHeard(s, r)));
    } else {
      HeardElsewhere(s, r);
    }
  }

  lemma UserTold(s: State, l: Label)
    requires Inv(s) && !l.WorkerStep? && UserEnabled(s, l) && ToldOk(s, Cur(s))
    ensures ToldOk(UserNext(s, l), Cur(UserNext(s, l)))
  {
    if l.UGo? {
      GoTold(s);
    } else if l.UHeard? {
      HeardTold(s, l.r);
    } else if l.Call? {
      CallTold(s, l.api);
    } else {
      AsideTold(s, l);
    }
  }

  lemma CallTold(s: State, api: Api)
    requires s.user.Idle? && ToldOk(s, Cur(s))
    ensures ToldOk(s.(user := Begin(api)), Cur(s.(user := Begin(api))))
  {
    SameTold(s, s.(user := Begin(api)), Cur(s));
  }

  /** Joins, dialling and failing commands happen where nothing is claimed, and lead nowhere else. */
  lemma AsideTold(s: State, l: Label)
    requires Inv(s) && !l.WorkerStep? && UserEnabled(s, l) && !l.UGo? && !l.UHeard? && !l.Call?
    ensures !Keeping(UserNext(s, l))
  {
  }

  // ----- worker steps

  /** The worker writes its renew on the instance's connection. */
  lemma SentTold(s: State, i: nat, p: RenewPc)
    requires Joint(s, Some(Tick(Renewing(p)))) && ToldOk(s, Some(Tick(Renewing(p)))) && s.conn == Some(p.c) && p.c < |s.conns|
    ensures ToldOk(Write(s, p.c, Worker(i), Renew(p.tok)), Some(Tick(Renewing(RenewRecv(p.c, p.tok)))))
  {
    ToldAppend(ConnAt(s, p.c).trace, Sent(Renew(p.tok)));
  }

  /** It reads the answer. */
  lemma AnswerTold(s: State, p: RenewPc, r: Reply)
    requires Joint(s, Some(Tick(Renewing(p)))) && ToldOk(s, Some(Tick(Renewing(p)))) && s.conn == Some(p.c) && p.c < |s.conns|
    ensures ToldOk(Read(s, p.c, r), Some(Tick(RenewGoes(p, Heard(r)))))
  {
    ToldAppend(ConnAt(s, p.c).trace, Got(r));
  }

  lemma RenewTold(s: State, i: nat, p: RenewPc, ch: WorkerChoice)
    requires Joint(s, Some(Tick(Renewing(p)))) && ToldOk(s, Some(Tick(Renewing(p)))) && TickEnabled(s, Renewing(p), ch)
    requires p.c < |s.conns|
    ensures ToldOk(RenewEffect(s, i, p, ch), Some(Tick(RenewGoes(p, ch))))
  {
    RenewLegal(s, p);
    if ch.SendOk? {
      SentTold(s, i, p);
    } else if ch.Heard? {
      AnswerTold(s, p, ch.r);
    }
  }

  lemma FailTold(s: State, p: FailPc)
    requires Joint(s, Some(Tick(Failing(p)))) && ToldOk(s, Some(Tick(Failing(p))))
    ensures ToldOk(FailEffect(s, p), Some(Tick(FailGoes(s, p))))
  {
  }

  /** Everything else that the current worker does. */
  lemma LoopTold(s: State, i: nat, pc: WorkerPc, ch: WorkerChoice)
    requires Joint(s, Some(pc)) && ToldOk(s, Some(pc)) && WorkerEnabled(s, pc, Stopped(s), ch)
    requires !(pc.Tick? && (pc.tp.Renewing? || pc.tp.Failing?))
    ensures ToldOk(WorkerEffect(s, i, pc, ch), Some(WorkerGoes(s, pc, Stopped(s), ch)))
  {
  }

  lemma CurrentTold(s: State, i: nat, pc: WorkerPc, ch: WorkerChoice)
    requires Joint(s, Some(pc)) && ToldOk(s, Some(pc)) && WorkerEnabled(s, pc, Stopped(s), ch)
    requires s.conn.Some? ==> s.conn.value < |s.conns|
    ensures ToldOk(WorkerEffect(s, i, pc, ch), Some(WorkerGoes(s, pc, Stopped(s), ch)))
  {
    match pc
    case Tick(Renewing(p)) =>
      RenewLegal(s, p);
      RenewTold(s, i, p, ch);
    case Tick(Failing(p)) => FailTold(s, p);
    case _ => LoopTold(s, i, pc, ch);
  }

  lemma SetPcTold(s: State, p: Option<WorkerPc>, i: nat, pc: WorkerPc)
    requires ToldOk(s, p)
    ensures ToldOk(SetPc(s, i, pc), p)
  {
  }

  /** A worker of an earlier attempt changes nothing of this. */
  lemma OldTold(s: State, i: nat, ch: WorkerChoice)
    requires Inv(s) && Bounded(s) && Zeroed(s) && i < |s.workers| && s.workers[i].ev < s.attempt
    requires WorkerEnabled(s, s.workers[i].pc, s.workers[i].ev in s.raised, ch) && ToldOk(s, Cur(s))
    ensures ToldOk(WorkerNext(s, i, ch), Cur(WorkerNext(s, i, ch)))
  {
    var t := WorkerNext(s, i, ch);
    assert ClearerOk(s, i) && UpdaterOk(s, i);
    OldWorkerQuiet(s, WorkerStep(i, ch));
    EffectKeeps(s, i, s.workers[i].pc, ch);
    OldNotCurrent(s, i, WorkerGoes(s, s.workers[i].pc, s.workers[i].ev in s.raised, ch));
    SameTold(s, t, Cur(s));
  }

  lemma OldNotCurrent(s: State, i: nat, goes: WorkerPc)
    requires i < |s.workers| && s.workers[i].ev < s.attempt
    ensures Cur(SetPc(s, i, goes)) == Cur(s)
  {
  }

  lemma WorkerTold(s: State, i: nat, ch: WorkerChoice)
    requires Inv(s) && Bounded(s) && Zeroed(s) && i < |s.workers| && ToldOk(s, Cur(s))
    requires WorkerEnabled(s, s.workers[i].pc, s.workers[i].ev in s.raised, ch)
    ensures ToldOk(WorkerNext(s, i, ch), Cur(WorkerNext(s, i, ch)))
  {
    var w := s.workers[i];
    if w.ev < s.attempt {
      OldTold(s, i, ch);
    } else {
      assert i == |s.workers| - 1;
      CurrentTold(s, i, w.pc, ch);
      var goes := WorkerGoes(s, w.pc, Stopped(s), ch);
      SetPcTold(WorkerEffect(s, i, w.pc, ch), Some(goes), i, goes);
      EffectKeeps(s, i, w.pc, ch);
    }
  }

  // ----- every run without slips

  ghost predicate ToldInv(s: State) { Inv(s) && Bounded(s) && Zeroed(s) && ToldOk(s, Cur(s)) }

  lemma ToldKept(s: State, l: Label)
    requires ToldInv(s) && Enabled(s, l) && !Slip(s, l)
    ensures ToldInv(Next(s, l))
  {
    NextKeeps(s, l);
    if l.WorkerStep? {
      WorkerBounded(s, l.i, l.choice);
      WorkerZeroed(s, l.i, l.choice);
      WorkerTold(s, l.i, l.choice);
    } else {
      UserBounded(s, l);
      UserZeroed(s, l);
      UserTold(s, l);
    }
  }

  lemma ReachableTold(s: State)
    requires Reachable(s, ALL_SLIPS)
    ensures ToldInv(s)
  {
    InitialInv();
    forall t, l | ToldInv(t) && Enabled(t, l) && Avoids(t, l, ALL_SLIPS) ensures ToldInv(Next(t, l)) { ToldKept(t, l); }
    ReachableKeeps(s, ALL_SLIPS, t => ToldInv(t));
  }

  /**
   Between operations, with the I/O lock free, the lease of a held token is what the server last said on
   the connection held; only a report that the worker has read and not yet stored may be ahead of it.
   */
  lemma LeaseIsTold(s: State)
    requires Reachable(s, ALL_SLIPS) && s.user.Idle? && s.io.None? && s.token.Some?
    ensures s.conn.Some? && s.conn.value < |s.conns| && s.thread.Some? && s.thread.value < |s.workers|
    ensures var told, report := Told(s.conns[s.conn.value].trace), Unstored(s.workers[s.thread.value].pc);
      if report.Some? && report.value > 0 then report.value == told else s.lease == told
  {
    ReachableTold(s);
    HoldsGranted(s);
  }

  /**
   A tick of the current attempt that reports nothing, although the instance is open and its event unset,
   has given the hold up.
   */
  lemma TickGivesHoldUp(s: State, i: nat)
    requires Reachable(s, ALL_SLIPS) && i < |s.workers| && s.workers[i].pc == Tick(Unlock(None)) && s.workers[i].ev == s.attempt
    requires !s.closed && !Stopped(s)
    ensures s.conn.None? && s.token.None?
  {
    ReachableTold(s);
  }

  // ----- a grant is stored as it was read

  /** The user operation stores the grant of t for n seconds on connection c. */
  predicate Storing(s: State, cmd: Cmd, c: nat, t: Token, n: int) {
    && s.user.Grant? && s.user.cmd == cmd && s.conn == Some(c)
    && match s.user.gp
       case PutTok(tok, lease) => tok == t && lease == n
       case PutLease(lease) => s.token == Some(t) && lease == n
       case _ => s.token == Some(t) && s.lease == n
  }

  /** The call has returned with it, and its worker is started. */
  predicate Stored(s: State, cmd: Cmd, c: nat, t: Token, n: int) {
    && s.user.Idle? && s.conn == Some(c) && s.token == Some(t) && s.lease == n && !s.closed
    && s.last == (if cmd == CmdEnqueue then RetAcquired else RetTrue)
    && s.workers != [] && s.thread == Some(|s.workers| - 1) && s.workers[|s.workers| - 1] == WorkerState(s.attempt, WInit)
  }

  /** Meanwhile only workers of earlier attempts can move. */
  lemma OnlyOldMove(s: State, i: nat, ch: WorkerChoice)
    requires Inv(s) && s.user.Grant? && Enabled(s, WorkerStep(i, ch))
    ensures s.workers[i].ev < s.attempt
  {
    assert s.workers[i].ev == s.attempt ==> i == |s.workers| - 1;
  }

  lemma StoringByUser(s: State, l: Label, cmd: Cmd, c: nat, t: Token, n: int)
    requires Inv(s) && Storing(s, cmd, c, t, n) && !l.WorkerStep? && UserEnabled(s, l)
    ensures Storing(UserNext(s, l), cmd, c, t, n) || Stored(UserNext(s, l), cmd, c, t, n)
  {
    if s.user.gp.Started? { StartedWiring(s); }
  }

  lemma StoringKept(s: State, l: Label, cmd: Cmd, c: nat, t: Token, n: int)
    requires ToldInv(s) && Storing(s, cmd, c, t, n) && Enabled(s, l)
    ensures Storing(Next(s, l), cmd, c, t, n) || Stored(Next(s, l), cmd, c, t, n)
  {
    if l.WorkerStep? {
      OnlyOldMove(s, l.i, l.choice);
      assert ClearerOk(s, l.i) && UpdaterOk(s, l.i);
      OldWorkerQuiet(s, l);
      EffectKeeps(s, l.i, s.workers[l.i].pc, l.choice);
    } else {
      StoringByUser(s, l, cmd, c, t, n);
    }
  }

  lemma {:induction false} StoringRun(s: State, labels: seq<Label>, cmd: Cmd, c: nat, t: Token, n: int)
    requires ToldInv(s) && Storing(s, cmd, c, t, n) && Possible(s, labels, ALL_SLIPS) && NoCalls(labels)
    requires After(s, labels).user.Grant?
    ensures ToldInv(After(s, labels)) && Storing(After(s, labels), cmd, c, t, n)
    decreases |labels|
  {
    if labels != [] {
      ToldKept(s, labels[0]);
      StoringKept(s, labels[0], cmd, c, t, n);
      if Stored(Next(s, labels[0]), cmd, c, t, n) { StaysIdle(Next(s, labels[0]), labels[1..]); }
      StoringRun(Next(s, labels[0]), labels[1..], cmd, c, t, n);
    }
  }

  /**
   A grant is stored as it was read: in every run without slips the call that has read "ok t n" returns
   with exactly this token and lease on the connection it was granted on, whatever workers do
   in between, and with a new worker for the current event.
   */
  lemma GrantStored(s: State, t: Token, n: int, labels: seq<Label>, l: Label)
    requires Reachable(s, ALL_SLIPS) && s.user.Invoke? && Enabled(s, UHeard(Granted(t, n)))
    requires var u := Next(s, UHeard(Granted(t, n)));
      && Possible(u, labels, ALL_SLIPS) && NoCalls(labels) && Enabled(After(u, labels), l)
      && After(u, labels).user.Grant? && Next(After(u, labels), l).user.Idle?
    ensures Stored(Next(After(Next(s, UHeard(Granted(t, n))), labels), l), s.user.cmd, CommandConn(s.user), t, n)
  {
    ReachableTold(s);
    var u := Next(s, UHeard(Granted(t, n)));
    ToldKept(s, UHeard(Granted(t, n)));
    assert Storing(u, s.user.cmd, CommandConn(s.user), t, n);
    StoringRun(u, labels, s.user.cmd, CommandConn(s.user), t, n);
    StoringKept(After(u, labels), l, s.user.cmd, CommandConn(s.user), t, n);
  }
}
