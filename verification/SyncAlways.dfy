/**
 What holds in every run of the synchronous machine, slips included: the lock discipline, the
 hands through which a connection goes, and the order of what is sent on it.
 */
module SyncAlways {
  import opened Basics
  import opened Session
  import opened Lifecycle
  import opened SyncMachine
  import opened SyncRuns
  import opened SyncInvariant

  // ----- what a worker that holds the I/O lock relies on

  /** The user operation is opening or authenticating c. */
  predicate InHand(s: State, c: nat) { s.user.Opening? && UserConn(s.user) == Some(c) }

  /** The worker has read the connection field and not yet taken the connection out. */
  predicate Gripping(p: TickPc) { TickConn(p).Some? && !AtToken(Tick(p)) && !TakenOut(Tick(p)) }

  /** It has read the token too. */
  predicate KnowsToken(p: TickPc) { p.Renewing? || (p.Failing? && (p.fp.FailChk? || p.fp.FailConn?)) }

  /** Places before the stop test, and the way out. */
  predicate Harmless(p: TickPc) { p == Check(ChkClosed) || p == Check(ChkStop) || p.Unlock? }

  /**
   No worker gets past its stop test here: releasing under the I/O lock and after it, and just before the
   connection is detached.
   */
  predicate Hushed(u: UserPc) {
    match u
    case Rel(p) => !p.RelLock?
    case Cls(_, th) => th.Released?
    case Shut(p, th) => th.Released? || p.ShutDetach?
    case Clear(_, th) => th.Released?
    case _ => false
  }

  predicate TickOk(s: State, p: TickPc) {
    && (Gripping(p) ==> s.conn == TickConn(p))
    && (KnowsToken(p) ==> s.token.Some?)
    && (p.Renewing? ==> s.token == Some(p.np.tok))
    && (AtToken(Tick(p)) || TakenOut(Tick(p)) ==> p.fp.c < |s.conns| && s.conn != Some(p.fp.c) && !InHand(s, p.fp.c))
    && (Hushed(s.user) ==> Harmless(p))
  }

  predicate WorkerOk(s: State, i: nat) {
    i < |s.workers| ==>
      var w := s.workers[i];
      && w.ev <= s.attempt
      && (w.pc.WNew? ==> s.user.Grant? && s.user.gp == Started(i))
      && (w.pc.Tick? <==> s.io == Some(Worker(i)))
      && (s.thread.None? ==> w.ev in s.raised)
      && (w.pc.Tick? ==> TickOk(s, w.pc.tp))
  }

  // ----- what has passed on a connection

  predicate IsRelease(e: Event) { e.Sent? && e.frame.Release? }

  predicate Spent(trace: seq<Event>) { exists i :: 0 <= i < |trace| && IsRelease(trace[i]) }

  predicate EndsInSent(trace: seq<Event>) { trace != [] && trace[|trace| - 1].Sent? }

  /** Every frame is answered before the next one, and none follows a release. */
  predicate Ordered(trace: seq<Event>) {
    && (forall i :: 0 <= i < |trace| - 1 && trace[i].Sent? ==> trace[i + 1].Got?)
    && (forall i, j :: 0 <= i < j < |trace| && IsRelease(trace[i]) ==> !trace[j].Sent?)
  }

  /** A command mutex is held exactly by the one who waits for the reply. */
  predicate BusyOk(s: State, c: nat) {
    ConnAt(s, c).busy.Some? ==>
      match ConnAt(s, c).busy.value
      case User => AtRecv(s.user) && CommandConn(s.user) == c
      case Worker(i) => AwaitsRenew(PcAt(s, i)) && PcAt(s, i).tp.np.c == c
  }

  predicate TalkOk(k: Conn) { Ordered(k.trace) && (k.open && k.busy.None? ==> !EndsInSent(k.trace)) }

  /** A released connection is not being opened, and still the instance's only until the release has closed it. */
  predicate SpentOk(s: State, c: nat) {
    Spent(ConnAt(s, c).trace) ==> !InHand(s, c) && (s.conn == Some(c) ==> ReleasedZone(s.user))
  }

  predicate ConnOk(s: State, c: nat) {
    TalkOk(ConnAt(s, c)) && SpentOk(s, c) && Accounted(s, c) && BusyOk(s, c)
  }

  // ----- what the user operation relies on

  /** thread is None here in every run. */
  predicate ThreadGone(u: UserPc) {
    match u
    case Rel(_) => true
    case Cls(_, th) => th.Rearm? || th.Released?
    case Shut(_, th) => th.Rearm? || th.Released?
    case Clear(p, th) => th.Rearm? || th.Released? || p.ClrTok? || p.ClrLease?
    case Rearming(_, _) => true
    case Opening(_, _) => true
    case _ => false
  }

  predicate ShutOk(s: State, p: ShutPc) {
    p.ShutRead? || (p.c < |s.conns| && (s.conn == Some(p.c) || s.conn.None?) && (p.ShutUnlock? || p.ShutDetach? ==> !ConnAt(s, p.c).open))
  }

  predicate OpenOk(s: State, p: OpenPc) {
    s.token.None? && (p.Require? <==> s.conn.Some?) && (OpenConnOf(p).Some? ==> OpenConnOf(p).value < |s.conns|)
  }

  predicate UserOk(s: State) {
    match s.user
    case Rel(p) => RelConnOf(p).Some? ==> s.conn == RelConnOf(p)
    case Shut(p, _) => ShutOk(s, p)
    case Clear(p, _) => s.conn.None? && (p.ClrLease? ==> s.token.None?)
    case Rearming(_, _) => s.conn.None? && s.token.None?
    case Opening(p, _) => OpenOk(s, p)
    case Invoke(p, _) => s.conn == Some(p.c) && s.token.None?
    case Grant(p, _) => (p.PutTok? ==> s.token.None?) && (p.Started? ==> p.t < |s.workers| && PcAt(s, p.t).WNew?)
    case WaitConn => s.token.None?
    case _ => true
  }

  predicate FlagsOk(s: State) {
    && (ClosingZone(s.user) ==> s.closed)
    && (NotClosedZone(s.user) ==> !s.closed)
    && (RaisedZone(s.user) ==> Stopped(s))
    && (ThreadGone(s.user) ==> s.thread.None?)
    && (s.closed && !ClosingZone(s.user) ==> s.conn.None? && s.token.None? && s.thread.None? && Stopped(s))
    && (s.conn.Some? ==> s.conn.value < |s.conns|)
    && (s.thread.Some? ==> s.thread.value < |s.workers|)
    && (UserThread(s.user).Some? ==> UserThread(s.user).value < |s.workers|)
    && (s.io == Some(User) <==> HasLock(s.user))
    && (s.io.Some? && s.io.value.Worker? ==> s.io.value.id < |s.workers|)
  }

  ghost predicate EventsOk(s: State) {
    && (forall e :: e in s.raised ==> e <= s.attempt)
    && (forall e: nat :: e < s.attempt ==> e in s.raised)
  }

  /** The invariant of every run. */
  ghost predicate Always(s: State) {
    && EventsOk(s) && FlagsOk(s) && UserOk(s)
    && (forall i :: 0 <= i < |s.workers| ==> WorkerOk(s, i))
    && (forall c :: 0 <= c < |s.conns| ==> ConnOk(s, c))
  }

  // ----- user steps that leave workers, connections and the I/O lock alone

  /** While no worker may pass its stop test, all their events are set. */
  lemma AllRaised(s: State)
    requires Always(s) && (Hushed(s.user) || RaisedZone(s.user) || ThreadGone(s.user))
    ensures forall i :: 0 <= i < |s.workers| ==> s.workers[i].ev in s.raised
  {
    forall i | 0 <= i < |s.workers| ensures s.workers[i].ev in s.raised { assert WorkerOk(s, i); }
  }

  /** A step of the user alone: workers, connections, connection field and I/O lock stay. */
  lemma AloneKeeps(s: State, t: State)
    requires Always(s) && EventsOk(t) && FlagsOk(t) && UserOk(t)
    requires t.workers == s.workers && t.conns == s.conns && t.io == s.io && t.conn == s.conn && t.attempt == s.attempt
    requires s.raised <= t.raised
    requires t.token == s.token || s.token.None? || s.conn.None?
    requires t.thread.None? && s.thread.Some? ==> Stopped(t)
    requires s.user.Grant? && s.user.gp.Started? ==> t.user == s.user
    requires t.user.Opening? ==> UserConn(t.user).None? || (s.user.Opening? && UserConn(s.user) == UserConn(t.user))
    requires ReleasedZone(s.user) ==> ReleasedZone(t.user) || s.conn.None?
    requires Hushed(t.user) ==> Hushed(s.user)
    requires AtRecv(s.user) ==> AtRecv(t.user) && CommandConn(t.user) == CommandConn(s.user)
    requires s.user.Opening? && UserConn(s.user).Some? ==> t.user.Opening? && UserConn(s.user) == UserConn(t.user)
    ensures Always(t)
  {
    forall i | 0 <= i < |t.workers| ensures WorkerOk(t, i) { assert WorkerOk(s, i); }
    forall c | 0 <= c < |t.conns| ensures ConnOk(t, c) { assert ConnOk(s, c); }
  }

  lemma CallAlways(s: State, api: Api)
    requires Always(s) && s.user.Idle?
    ensures Always(s.(user := Begin(api)))
  {
    AloneKeeps(s, s.(user := Begin(api)));
  }

  lemma StopAlways(s: State)
    requires Always(s) && s.user.Stop? && !s.user.sp.StopJoin?
    ensures Always(StopGo(s, s.user.sp, s.user.k))
  {
    AloneKeeps(s, StopGo(s, s.user.sp, s.user.k));
  }

  lemma JoinAlways(s: State)
    requires Always(s) && AtJoin(s.user)
    ensures Always(LeaveJoin(s))
  {
    AloneKeeps(s, LeaveJoin(s));
  }

  lemma ClsAlways(s: State)
    requires Always(s) && s.user.Cls?
    ensures Always(ClsGo(s, s.user.cp, s.user.th))
  {
    AloneKeeps(s, ClsGo(s, s.user.cp, s.user.th));
  }

  lemma ClearAlways(s: State)
    requires Always(s) && s.user.Clear? && !s.user.lp.ClrJoin?
    ensures Always(ClearGo(s, s.user.lp, s.user.th))
  {
    AloneKeeps(s, ClearGo(s, s.user.lp, s.user.th));
  }

  lemma WaitAlways(s: State)
    requires Always(s) && (s.user.WaitTok? || s.user.WaitConn?)
    ensures Always(UserGo(s))
  {
    AloneKeeps(s, UserGo(s));
  }

  lemma PutAlways(s: State)
    requires Always(s) && s.user.Grant? && (s.user.gp.PutTok? || s.user.gp.PutLease?)
    ensures Always(GrantGo(s, s.user.gp, s.user.cmd))
  {
    AloneKeeps(s, GrantGo(s, s.user.gp, s.user.cmd));
  }

  lemma RequireAlways(s: State)
    requires Always(s) && s.user.Opening? && s.user.xp.Require?
    ensures Always(OpenGo(s, s.user.xp, s.user.op))
  {
    AloneKeeps(s, OpenGo(s, s.user.xp, s.user.op));
  }

  // ----- user steps that change the attempt, the workers, the I/O lock or a connection

  lemma RearmAlways(s: State)
    requires Always(s) && s.user.Rearming?
    ensures Always(RearmGo(s, s.user.ap, s.user.op))
  {
    var t := RearmGo(s, s.user.ap, s.user.op);
    forall i | 0 <= i < |t.workers| ensures WorkerOk(t, i) { assert WorkerOk(s, i); }
    forall c | 0 <= c < |t.conns| ensures ConnOk(t, c) { assert ConnOk(s, c); }
  }

  lemma StartAlways(s: State)
    requires Always(s) && s.user.Grant? && (s.user.gp.Start? || s.user.gp.Started?)
    ensures Always(GrantGo(s, s.user.gp, s.user.cmd))
  {
    var t := GrantGo(s, s.user.gp, s.user.cmd);
    forall i | 0 <= i < |t.workers| ensures WorkerOk(t, i) { assert i < |s.workers| ==> WorkerOk(s, i); }
    forall c | 0 <= c < |t.conns| ensures ConnOk(t, c) { assert ConnOk(s, c); }
  }

  lemma RelAlways(s: State)
    requires Always(s) && s.user.Rel? && Deterministic(s.user) && (s.user.rp.RelLock? ==> s.io.None?)
    ensures Always(RelGo(s, s.user.rp))
  {
    var t := RelGo(s, s.user.rp);
    forall i | 0 <= i < |t.workers| ensures WorkerOk(t, i) { assert WorkerOk(s, i); }
    forall c | 0 <= c < |t.conns| ensures ConnOk(t, c) { assert ConnOk(s, c); }
  }

  /** Taking and leaving the I/O lock in close. */
  lemma ShutLockAlways(s: State)
    requires Always(s) && s.user.Shut? && ((s.user.hp.ShutLock? && s.io.None?) || s.user.hp.ShutUnlock?)
    ensures Always(ShutGo(s, s.user.hp, s.user.th))
  {
    var t := ShutGo(s, s.user.hp, s.user.th);
    forall i | 0 <= i < |t.workers| ensures WorkerOk(t, i) { assert WorkerOk(s, i); }
    forall c | 0 <= c < |t.conns| ensures ConnOk(t, c) { assert ConnOk(s, c); }
  }

  lemma ShutTouchAlways(s: State)
    requires Always(s) && s.user.Shut? && (s.user.hp.ShutDown? || s.user.hp.ShutClose?)
    ensures Always(ShutGo(s, s.user.hp, s.user.th))
  {
    var t := ShutGo(s, s.user.hp, s.user.th);
    forall i | 0 <= i < |t.workers| ensures WorkerOk(t, i) { assert WorkerOk(s, i); }
    forall c | 0 <= c < |t.conns| ensures ConnOk(t, c) { assert ConnOk(s, c); }
  }

  lemma ShutDetachAlways(s: State)
    requires Always(s) && s.user.Shut? && s.user.hp.ShutDetach?
    ensures Always(ShutGo(s, s.user.hp, s.user.th))
  {
    var t := ShutGo(s, s.user.hp, s.user.th);
    forall i | 0 <= i < |t.workers| ensures WorkerOk(t, i) { assert WorkerOk(s, i); }
    forall c | 0 <= c < |t.conns| ensures ConnOk(t, c) { assert ConnOk(s, c); }
  }

  lemma ShutAlways(s: State)
    requires Always(s) && s.user.Shut? && (s.user.hp.ShutLock? ==> s.io.None?)
    ensures Always(ShutGo(s, s.user.hp, s.user.th))
  {
    match s.user.hp
    case ShutRead => AloneKeeps(s, ShutGo(s, s.user.hp, s.user.th));
    case ShutDown(_) => ShutTouchAlways(s);
    case ShutLock(_) => ShutLockAlways(s);
    case ShutClose(_) => ShutTouchAlways(s);
    case ShutUnlock(_) => ShutLockAlways(s);
    case ShutDetach(_) => ShutDetachAlways(s);
  }

  /** Dialling, storing the connection, and closing it after a failed auth. */
  lemma OpenAlways(s: State, l: Label)
    requires Always(s) && s.user.Opening? && !l.WorkerStep? && UserEnabled(s, l)
    requires l.UDialOk? || l.UDialFail? || l.UNoAuth? || (l.UGo? && (s.user.xp.Adopt? || s.user.xp.AuthClose?))
    ensures Always(UserNext(s, l))
  {
    var t := UserNext(s, l);
    forall i | 0 <= i < |t.workers| ensures WorkerOk(t, i) { assert WorkerOk(s, i); }
    forall c | 0 <= c < |t.conns| ensures ConnOk(t, c) { assert c < |s.conns| ==> ConnOk(s, c); }
  }

  // ----- commands

  /** A frame on a connection that is ready for it, and that no release has passed. */
  lemma SendOrdered(trace: seq<Event>, f: Frame)
    requires Ordered(trace) && !EndsInSent(trace) && !Spent(trace)
    ensures Ordered(trace + [Sent(f)]) && (Spent(trace + [Sent(f)]) ==> f.Release?)
  {
    forall i | 0 <= i < |trace| ensures !IsRelease(trace[i]) { NotSpent(trace, i); }
  }

  lemma NotSpent(trace: seq<Event>, i: nat)
    requires !Spent(trace) && i < |trace|
    ensures !IsRelease(trace[i])
  {
  }

  lemma ReplyOrdered(trace: seq<Event>, r: Reply)
    requires Ordered(trace)
    ensures Ordered(trace + [Got(r)]) && (Spent(trace + [Got(r)]) ==> Spent(trace)) && !EndsInSent(trace + [Got(r)])
  {
    var t := trace + [Got(r)];
    forall i, j | 0 <= i < j < |t| && IsRelease(t[i]) ensures !t[j].Sent? { assert i < |trace|; }
    if Spent(t) {
      var i :| 0 <= i < |t| && IsRelease(t[i]);
      assert IsRelease(trace[i]);
    }
  }

  lemma WriteAlways(s: State)
    requires Always(s) && AtSend(s.user) && Writable(s, CommandConn(s.user))
    ensures Always(UserWrite(s))
  {
    var d := CommandConn(s.user);
    var t := UserWrite(s);
    assert ConnOk(s, d);
    SendOrdered(s.conns[d].trace, UserFrame(s.user));
    forall i | 0 <= i < |t.workers| ensures WorkerOk(t, i) { assert WorkerOk(s, i); }
    forall c | 0 <= c < |t.conns| ensures ConnOk(t, c) { assert ConnOk(s, c); }
  }

  lemma HeardConns(s: State, r: Reply, c: nat)
    requires Always(s) && AtRecv(s.user) && c < |s.conns|
    ensures ConnOk(UserHeard(s, r), c)
  {
    assert ConnOk(s, c);
    ReplyOrdered(ConnAt(s, c).trace, r);
  }

  lemma HeardAlways(s: State, r: Reply)
    requires Always(s) && AtRecv(s.user)
    ensures Always(UserHeard(s, r))
  {
    var t := UserHeard(s, r);
    forall i | 0 <= i < |t.workers| ensures WorkerOk(t, i) { assert WorkerOk(s, i); }
    forall c | 0 <= c < |t.conns| ensures ConnOk(t, c) { HeardConns(s, r, c); }
  }

  lemma RaiseAlways(s: State, closes: bool)
    requires Always(s) && (AtSend(s.user) || AtRecv(s.user)) && (AtRecv(s.user) ==> closes)
    requires closes && AtSend(s.user) ==> ConnAt(s, CommandConn(s.user)).busy.None?
    ensures Always((if closes then Abort(s, CommandConn(s.user)) else s).(user := UserFailPc(s.user)))
  {
    var t := (if closes then Abort(s, CommandConn(s.user)) else s).(user := UserFailPc(s.user));
    forall i | 0 <= i < |t.workers| ensures WorkerOk(t, i) { assert WorkerOk(s, i); }
    forall c | 0 <= c < |t.conns| ensures ConnOk(t, c) { assert ConnOk(s, c); }
  }

  // ----- worker steps

  /** A worker moves; only the lease may change. */
  lemma MoveAlways(s: State, i: nat, lease: int, goes: WorkerPc)
    requires Always(s) && i < |s.workers| && !s.workers[i].pc.WNew? && !goes.WNew?
    requires !AwaitsRenew(s.workers[i].pc) && s.workers[i].pc.Tick? == goes.Tick?
    requires goes.Tick? ==> TickOk(s, goes.tp)
    requires !AtToken(s.workers[i].pc) && !TakenOut(s.workers[i].pc)
    ensures Always(SetPc(s.(lease := lease), i, goes))
  {
    var t := SetPc(s.(lease := lease), i, goes);
    forall j | 0 <= j < |t.workers| ensures WorkerOk(t, j) { assert WorkerOk(s, j); }
    forall c | 0 <= c < |t.conns| ensures ConnOk(t, c) { assert ConnOk(s, c); }
  }

  lemma LoopAlways(s: State, i: nat, ch: WorkerChoice)
    requires Always(s) && i < |s.workers| && WorkerEnabled(s, s.workers[i].pc, s.workers[i].ev in s.raised, ch)
    requires !s.workers[i].pc.Tick? && !s.workers[i].pc.WLock?
    ensures Always(WorkerNext(s, i, ch))
  {
    assert WorkerOk(s, i);
    MoveAlways(s, i, WorkerEffect(s, i, s.workers[i].pc, ch).lease, WorkerGoes(s, s.workers[i].pc, s.workers[i].ev in s.raised, ch));
  }

  lemma LockAlways(s: State, i: nat)
    requires Always(s) && i < |s.workers| && s.workers[i].pc.WLock? && s.io.None?
    ensures Always(SetPc(s.(io := Some(Worker(i))), i, Tick(Check(ChkClosed))))
  {
    var t := SetPc(s.(io := Some(Worker(i))), i, Tick(Check(ChkClosed)));
    forall j | 0 <= j < |t.workers| ensures WorkerOk(t, j) { assert WorkerOk(s, j); }
    forall c | 0 <= c < |t.conns| ensures ConnOk(t, c) { assert ConnOk(s, c); }
  }

  lemma UnlockAlways(s: State, i: nat, r: Option<int>)
    requires Always(s) && i < |s.workers| && s.workers[i].pc == Tick(Unlock(r))
    ensures Always(SetPc(s.(io := None), i, if r.None? then WDone else WAfter(r.value)))
  {
    var t := SetPc(s.(io := None), i, if r.None? then WDone else WAfter(r.value));
    assert WorkerOk(s, i);
    forall j | 0 <= j < |t.workers| ensures WorkerOk(t, j) { assert WorkerOk(s, j); }
    forall c | 0 <= c < |t.conns| ensures ConnOk(t, c) { assert ConnOk(s, c); }
  }

  lemma CheckAlways(s: State, i: nat, p: CheckPc)
    requires Always(s) && i < |s.workers| && s.workers[i].pc == Tick(Check(p))
    ensures Always(SetPc(s, i, Tick(CheckGoes(s, p, s.workers[i].ev in s.raised))))
  {
    assert WorkerOk(s, i);
    if Hushed(s.user) { AllRaised(s); }
    MoveAlways(s, i, s.lease, Tick(CheckGoes(s, p, s.workers[i].ev in s.raised)));
  }

  /** What such an action leaves in the connections. */
  lemma RenewTouchConn(s: State, i: nat, p: RenewPc, k: Conn, goes: TickPc, c: nat)
    requires Always(s) && i < |s.workers| && s.workers[i].pc == Tick(Renewing(p)) && c < |s.conns|
    requires TalkOk(k) && (Spent(k.trace) ==> Spent(ConnAt(s, p.c).trace)) && (k.open ==> ConnAt(s, p.c).open)
    requires k.busy.None? || (k.busy == Some(Worker(i)) && goes == Renewing(RenewRecv(p.c, p.tok))) || (k == ConnAt(s, p.c) && p.RenewSend?)
    requires !AtToken(Tick(goes)) && !TakenOut(Tick(goes))
    ensures ConnOk(SetPc(SetConn(s, p.c, k), i, Tick(goes)), c)
  {
    assert WorkerOk(s, i);
    assert ConnOk(s, c);
  }

  /** An action of a worker on the connection that it renews on. */
  lemma RenewTouch(s: State, i: nat, p: RenewPc, k: Conn, goes: TickPc)
    requires Always(s) && i < |s.workers| && s.workers[i].pc == Tick(Renewing(p))
    requires TalkOk(k) && (Spent(k.trace) ==> Spent(ConnAt(s, p.c).trace)) && (k.open ==> ConnAt(s, p.c).open)
    requires k.busy.None? || (k.busy == Some(Worker(i)) && goes == Renewing(RenewRecv(p.c, p.tok))) || (k == ConnAt(s, p.c) && p.RenewSend?)
    requires TickOk(s, goes) && !AtToken(Tick(goes)) && !TakenOut(Tick(goes))
    ensures Always(SetPc(SetConn(s, p.c, k), i, Tick(goes)))
  {
    var t := SetPc(SetConn(s, p.c, k), i, Tick(goes));
    assert WorkerOk(s, i);
    forall j | 0 <= j < |t.workers| ensures WorkerOk(t, j) { assert WorkerOk(s, j); }
    forall c | 0 <= c < |t.conns| ensures ConnOk(t, c) { RenewTouchConn(s, i, p, k, goes, c); }
  }

  /** The renew command, up to its failure handler or to the way out. */
  lemma RenewAlways(s: State, i: nat, p: RenewPc, ch: WorkerChoice)
    requires Always(s) && i < |s.workers| && s.workers[i].pc == Tick(Renewing(p)) && TickEnabled(s, Renewing(p), ch)
    ensures Always(SetPc(RenewEffect(s, i, p, ch), i, Tick(RenewGoes(p, ch))))
  {
    assert WorkerOk(s, i);
    assert ConnOk(s, p.c);
    var k := s.conns[p.c];
    if ch.SendOk? {
      SendOrdered(k.trace, Renew(p.tok));
      k := Emit(k, Sent(Renew(p.tok))).(busy := Some(Worker(i)));
    } else if ch.Heard? {
      ReplyOrdered(k.trace, ch.r);
      k := Emit(k, Got(ch.r)).(busy := None);
    } else if !ch.SendFail? || ch.closes {
      k := k.(open := false, busy := None);
    }
    RenewTouch(s, i, p, k, RenewGoes(p, ch));
    assert SetConn(s, p.c, k) == RenewEffect(s, i, p, ch);
  }

  /** The handler finds its connection and takes it out. */
  lemma TakeOutAlways(s: State, i: nat, c: nat)
    requires Always(s) && i < |s.workers| && s.workers[i].pc == Tick(Failing(FailConn(c)))
    ensures Always(SetPc(s.(conn := None), i, Tick(Failing(FailTok(c)))))
  {
    var t := SetPc(s.(conn := None), i, Tick(Failing(FailTok(c))));
    assert WorkerOk(s, i);
    forall j | 0 <= j < |t.workers| ensures WorkerOk(t, j) { assert WorkerOk(s, j); }
    forall d | 0 <= d < |t.conns| ensures ConnOk(t, d) { assert ConnOk(s, d); }
  }

  lemma ClearTokenAlways(s: State, i: nat, c: nat)
    requires Always(s) && i < |s.workers| && s.workers[i].pc == Tick(Failing(FailTok(c)))
    ensures Always(SetPc(s.(token := None), i, Tick(Failing(FailLease(c)))))
  {
    var t := SetPc(s.(token := None), i, Tick(Failing(FailLease(c))));
    assert WorkerOk(s, i);
    forall j | 0 <= j < |t.workers| ensures WorkerOk(t, j) { assert WorkerOk(s, j); }
    forall d | 0 <= d < |t.conns| ensures ConnOk(t, d) { assert ConnOk(s, d); }
  }

  lemma ClearLeaseAlways(s: State, i: nat, c: nat)
    requires Always(s) && i < |s.workers| && s.workers[i].pc == Tick(Failing(FailLease(c)))
    ensures Always(SetPc(s.(lease := 0), i, Tick(Failing(FailClose(c)))))
  {
    var t := SetPc(s.(lease := 0), i, Tick(Failing(FailClose(c))));
    assert WorkerOk(s, i);
    forall j | 0 <= j < |t.workers| ensures WorkerOk(t, j) { assert WorkerOk(s, j); }
    forall d | 0 <= d < |t.conns| ensures ConnOk(t, d) { assert ConnOk(s, d); }
  }

  lemma DropAlways(s: State, i: nat, c: nat)
    requires Always(s) && i < |s.workers| && s.workers[i].pc == Tick(Failing(FailClose(c)))
    ensures Always(SetPc(CloseConn(s, c), i, Tick(Unlock(None))))
  {
    var t := SetPc(CloseConn(s, c), i, Tick(Unlock(None)));
    assert WorkerOk(s, i);
    forall j | 0 <= j < |t.workers| ensures WorkerOk(t, j) { assert WorkerOk(s, j); }
    forall d | 0 <= d < |t.conns| ensures ConnOk(t, d) { assert ConnOk(s, d); }
  }

  lemma FailAlways(s: State, i: nat, p: FailPc)
    requires Always(s) && i < |s.workers| && s.workers[i].pc == Tick(Failing(p))
    ensures Always(SetPc(FailEffect(s, p), i, Tick(FailGoes(s, p))))
  {
    assert WorkerOk(s, i);
    match p
    case FailChk(c) => MoveAlways(s, i, s.lease, Tick(FailGoes(s, p)));
    case FailConn(c) => TakeOutAlways(s, i, c);
    case FailTok(c) => ClearTokenAlways(s, i, c);
    case FailLease(c) => ClearLeaseAlways(s, i, c);
    case FailClose(c) => DropAlways(s, i, c);
  }

  // ----- every run

  lemma UserGoAlways(s: State)
    requires Always(s) && UserEnabled(s, UGo)
    ensures Always(UserGo(s))
  {
    match s.user
    case Stop(_, _) => StopAlways(s);
    case Rel(_) => RelAlways(s);
    case Cls(_, _) => ClsAlways(s);
    case Shut(_, _) => ShutAlways(s);
    case Clear(_, _) => ClearAlways(s);
    case Rearming(_, _) => RearmAlways(s);
    case Opening(p, _) =>
      if p.Require? { RequireAlways(s); } else { OpenAlways(s, UGo); }
    case WaitTok => WaitAlways(s);
    case WaitConn => WaitAlways(s);
    case Grant(p, _) =>
      if p.Start? || p.Started? { StartAlways(s); } else { PutAlways(s); }
  }

  lemma UserAlways(s: State, l: Label)
    requires Always(s) && !l.WorkerStep? && UserEnabled(s, l)
    ensures Always(UserNext(s, l))
  {
    match l
    case Call(api) => CallAlways(s, api);
    case UGo => UserGoAlways(s);
    case UJoined => JoinAlways(s);
    case UGaveUp => JoinAlways(s);
    case UDialOk => OpenAlways(s, l);
    case UDialFail => OpenAlways(s, l);
    case UNoAuth => OpenAlways(s, l);
    case USendOk => WriteAlways(s);
    case USendFail(closes) => RaiseAlways(s, closes);
    case UHeard(r) => HeardAlways(s, r);
    case UIoFail => RaiseAlways(s, true);
  }

  lemma WorkerAlways(s: State, i: nat, ch: WorkerChoice)
    requires Always(s) && i < |s.workers| && WorkerEnabled(s, s.workers[i].pc, s.workers[i].ev in s.raised, ch)
    ensures Always(WorkerNext(s, i, ch))
  {
    match s.workers[i].pc
    case WLock => LockAlways(s, i);
    case Tick(Check(p)) => CheckAlways(s, i, p);
    case Tick(Renewing(p)) => RenewAlways(s, i, p, ch);
    case Tick(Failing(p)) => FailAlways(s, i, p);
    case Tick(Unlock(r)) => UnlockAlways(s, i, r);
    case _ => LoopAlways(s, i, ch);
  }

  lemma NextAlways(s: State, l: Label)
    requires Always(s) && Enabled(s, l)
    ensures Always(Next(s, l))
  {
    if l.WorkerStep? {
      WorkerAlways(s, l.i, l.choice);
    } else {
      UserAlways(s, l);
    }
  }

  /** The invariant holds in every reachable state, whatever slips happened. */
  lemma EveryRun(s: State)
    requires Reachable(s, NOTHING)
    ensures Always(s)
  {
    forall t, l | Always(t) && Enabled(t, l) && Avoids(t, l, NOTHING) ensures Always(Next(t, l)) { NextAlways(t, l); }
    ReachableKeeps(s, NOTHING, t => Always(t));
  }

  // ----- what it means

  /** Once a release is on the wire no renew follows it, and no two commands are ever in flight together: in every run. */
  lemma ReleaseOrder(s: State, c: nat, i: nat)
    requires Reachable(s, NOTHING) && c < |s.conns| && i < |s.conns[c].trace| && s.conns[c].trace[i].Sent?
    ensures i + 1 < |s.conns[c].trace| ==> s.conns[c].trace[i + 1].Got?
    ensures s.conns[c].trace[i].frame.Release? ==> forall j :: i < j < |s.conns[c].trace| ==> !s.conns[c].trace[j].Sent?
  {
    EveryRun(s);
    assert ConnOk(s, c);
  }

  /**
   Every open connection is in exactly one place: the instance's, in the hands of the operation
   that opens it, or in those of the failure handler that took it out and will close it. Between
   operations at most the instance's is open. In every run.
   */
  lemma ConnectionConservation(s: State, c: nat)
    requires Reachable(s, NOTHING) && c < |s.conns|
    ensures s.conns[c].open ==> s.conn == Some(c) || InHand(s, c) || InHandler(s, c)
    ensures !(s.conn == Some(c) && InHand(s, c)) && !(s.conn == Some(c) && InHandler(s, c)) && !(InHand(s, c) && InHandler(s, c))
    ensures s.user.Idle? && s.io.None? && s.conns[c].open ==> s.conn == Some(c)
  {
    EveryRun(s);
    assert ConnOk(s, c);
    if InHandler(s, c) { assert WorkerOk(s, s.io.value.id); }
  }

  /** The stop event of every earlier attempt is set, and without a thread that of every worker: in every run. */
  lemma ReplacedEventsSet(s: State, e: nat, i: nat)
    requires Reachable(s, NOTHING) && e < s.attempt && i < |s.workers|
    ensures e in s.raised
    ensures s.thread.None? ==> s.workers[i].ev in s.raised
  {
    EveryRun(s);
    assert WorkerOk(s, i);
  }

  /**
   When a renew has failed its connection is still the instance's, and a token is held: the
   identity check of the handler never fails. In every run.
   */
  lemma HandlerFindsItsConnection(s: State, i: nat, c: nat)
    requires Reachable(s, NOTHING) && i < |s.workers| && s.workers[i].pc == Tick(Failing(FailChk(c)))
    ensures s.conn == Some(c) && s.token.Some?
  {
    EveryRun(s);
    assert WorkerOk(s, i);
  }

  /**
   After a finished close nothing is held, and no worker changes connection or token or puts an event in a
   trace: in every run.
   */
  lemma ClosedStaysClosed(s: State, i: nat, ch: WorkerChoice)
    requires Reachable(s, NOTHING) && s.user.Idle? && s.closed
    ensures s.conn.None? && s.token.None? && s.thread.None?
    ensures Enabled(s, WorkerStep(i, ch)) ==>
      var t := WorkerNext(s, i, ch);
      t.conn == s.conn && t.token == s.token && forall c :: 0 <= c < |s.conns| ==> t.conns[c].trace == s.conns[c].trace
  {
    EveryRun(s);
    assert WorkerOk(s, i);
  }
}
