/**
 The inductive invariant of the synchronous machine as long as no token slip happens. The user
 and the worker of the current attempt are tied together only through zones, sets of program
 counters, so that each kind of step is checked on its own. The lease is not part of it.
 */
module SyncInvariant {
  import opened Basics
  import opened Session
  import opened Lifecycle
  import opened SyncMachine
  import opened SyncRuns

  // ----- zones of the user operation

  /** thread is None here: the operation never had one, or has let go of it. */
  predicate NoThread(u: UserPc) {
    match u
    case Rel(_) => true
    case Cls(_, th) => !th.Plain?
    case Shut(_, th) => !th.Plain?
    case Clear(p, th) => p.ClrTok? || p.ClrLease? || !th.Plain?
    case Rearming(_, _) => true
    case Opening(_, _) => true
    case Invoke(_, _) => true
    case Grant(p, _) => !p.Started?
    case _ => false
  }

  /** The current attempt has not started a worker. */
  predicate NoWorker(u: UserPc) {
    match u
    case Cls(_, th) => th.Failed?
    case Shut(_, th) => th.Failed?
    case Clear(_, th) => th.Failed?
    case Opening(_, _) => true
    case Invoke(_, _) => true
    case Grant(p, _) => !p.Started?
    case _ => false
  }

  predicate HasLock(u: UserPc) {
    (u.Rel? && !u.rp.RelLock?) || (u.Shut? && (u.hp.ShutClose? || u.hp.ShutUnlock?))
  }

  /** Closing or resetting an instance that may be held. */
  predicate MayHold(th: Then) { th.Plain? || th.Rearm? }

  /** Where a worker may be past its stop test with the connection still in place. */
  predicate TickZone(u: UserPc) {
    match u
    case Idle => true
    case WaitTok => true
    case Stop(_, _) => true
    case Rel(p) => p.RelLock?
    case Cls(_, th) => MayHold(th)
    case Shut(p, th) => MayHold(th) && (p.ShutRead? || p.ShutDown? || p.ShutLock?)
    case _ => false
  }

  /** Where a worker may be wiping the instance after a failed renew. */
  predicate FailZone(u: UserPc) {
    TickZone(u) || u.WaitConn? || (u.Clear? && u.th.Plain? && (u.lp.ClrRead? || u.lp.ClrJoin?))
  }

  /** Between setting the closed flag and finishing the close or clearing the flag. */
  predicate ClosingZone(u: UserPc) {
    (u.Cls? && u.cp.ClsSet?) || u.Shut? || u.Clear? || (u.Rearming? && u.ap.RearmFlag?)
  }

  predicate NotClosedZone(u: UserPc) {
    (u.Cls? && u.cp.ClsFlag?) || (u.Rearming? && u.ap.RearmEvent?) || u.Opening? || u.Invoke? || u.Grant?
  }

  /** The stop event of the attempt has been set by this operation. */
  predicate RaisedZone(u: UserPc) {
    (u.Stop? && (u.sp.StopJoin? || u.sp.StopClear?)) || u.Shut? || u.Clear? || u.Rearming?
  }

  /** _stop_renew has already run in this operation. */
  predicate StoppedZone(u: UserPc) {
    u.Rel? || (u.Cls? && (u.th.Rearm? || u.th.Released?))
  }

  /** The release frame has been written. */
  predicate ReleasedZone(u: UserPc) {
    match u
    case Rel(p) => p.RelRecv? || p.RelUnlock?
    case Cls(_, th) => th.Released?
    case Shut(_, th) => th.Released?
    case Clear(_, th) => th.Released?
    case _ => false
  }

  /** An attempt owns a connection and has no token yet, or its command has failed. */
  predicate PendingZone(u: UserPc) {
    match u
    case Opening(p, _) => p.Require?
    case Invoke(_, _) => true
    case Grant(p, _) => p.PutTok?
    case Cls(_, th) => th.Failed?
    case Shut(_, th) => th.Failed?
    case _ => false
  }

  predicate LetsGo(u: UserPc) { (u.Stop? && u.sp.StopClear?) || (u.Clear? && u.lp.ClrThread?) }

  // ----- regions of a worker

  /** Past the stop test with nothing written yet. */
  predicate Past(pc: WorkerPc) {
    pc.Tick? && match pc.tp
      case Check(p) => p.ChkConn? || p.ChkTok?
      case Renewing(_) => true
      case Failing(p) => p.FailChk? || p.FailConn?
      case Unlock(_) => false
  }

  /** The worker will not renew again. */
  predicate Ended(pc: WorkerPc) {
    pc.WDone? || Dropping(pc) || (pc.Tick? && pc.tp.Unlock? && pc.tp.remaining.None?)
  }

  /** The only places of a worker whose attempt is over: it has no token to clear, and sends nothing. */
  predicate StalePc(pc: WorkerPc) { !pc.WNew? && !Past(pc) && !AtToken(pc) }

  predicate RemainingInBounds(pc: WorkerPc) {
    match pc
    case WAfter(r) => 0 <= r <= MAX_PROTOCOL_SECONDS
    case Updating(_, r) => 0 < r <= MAX_PROTOCOL_SECONDS
    case Tick(Unlock(Some(r))) => 0 <= r <= MAX_PROTOCOL_SECONDS
    case _ => true
  }

  /** The program counter of the current attempt's worker. */
  function Cur(s: State): Option<WorkerPc> {
    if |s.workers| > 0 && s.workers[|s.workers| - 1].ev == s.attempt then Some(s.workers[|s.workers| - 1].pc) else None
  }

  /** The current attempt's worker has a write to the instance still to come. */
  predicate Active(p: Option<WorkerPc>) { p.Some? && !StalePc(p.value) }

  predicate Stopped(s: State) { s.attempt in s.raised }

  // ----- the invariant

  ghost predicate Numbering(s: State) {
    && (forall e :: e in s.raised ==> e <= s.attempt)
    && (forall e: nat :: e < s.attempt ==> e in s.raised)
    && (forall i :: 0 <= i < |s.workers| ==> s.workers[i].ev <= s.attempt)
    && (forall i, j :: 0 <= i < j < |s.workers| ==> s.workers[i].ev < s.workers[j].ev)
    && (s.conn.Some? ==> s.conn.value < |s.conns|)
  }

  ghost predicate Locking(s: State) {
    && (s.io == Some(User) <==> HasLock(s.user))
    && (forall i :: 0 <= i < |s.workers| ==> (s.workers[i].pc.Tick? <==> s.io == Some(Worker(i))))
    && (s.io.Some? && s.io.value.Worker? ==> s.io.value.id < |s.workers|)
  }

  /** The connection is taken out of the instance and the token cleared; lease and transport follow. */
  predicate TakenOut(pc: WorkerPc) { AtLease(pc) || Dropping(pc) }

  ghost predicate Workers(s: State) {
    forall i :: 0 <= i < |s.workers| ==>
      && (s.workers[i].ev < s.attempt ==> StalePc(s.workers[i].pc))
      && RemainingInBounds(s.workers[i].pc)
      && (s.workers[i].pc.Tick? && s.workers[i].pc.tp.Failing? ==> s.workers[i].pc.tp.fp.c < |s.conns|)
      && (TakenOut(s.workers[i].pc) ==> s.conn != Some(s.workers[i].pc.tp.fp.c))
      && (TakenOut(s.workers[i].pc) ==> !(s.user.Opening? && UserConn(s.user) == Some(s.workers[i].pc.tp.fp.c)))
  }

  predicate Flags(s: State, p: Option<WorkerPc>) {
    && (ClosingZone(s.user) ==> s.closed)
    && (NotClosedZone(s.user) ==> !s.closed)
    && (RaisedZone(s.user) ==> Stopped(s))
    && (Stopped(s) ==> s.closed || RaisedZone(s.user) || StoppedZone(s.user))
    && (s.closed && !ClosingZone(s.user) ==>
          s.conn.None? && s.token.None? && s.thread.None? && Stopped(s) && !Active(p))
  }

  predicate Threads(s: State, p: Option<WorkerPc>) {
    && (s.thread.Some? ==> s.thread.value == |s.workers| - 1 && p.Some?)
    && (NoThread(s.user) ==> s.thread.None?)
    && (NoWorker(s.user) ==> p.None?)
    && (UserThread(s.user).Some? ==> s.thread == UserThread(s.user))
    && (s.user.Stop? && s.user.sp.StopSet? ==> s.thread.Some?)
    && (p == Some(WNew) <==> s.user.Grant? && s.user.gp.Started?)
  }

  predicate PastOk(s: State, p: TickPc) {
    && TickZone(s.user) && s.conn.Some? && s.token.Some?
    && (TickConn(p).Some? ==> s.conn == TickConn(p))
    && (p.Renewing? ==> s.token == Some(p.np.tok))
  }

  /** What the worker of the current attempt may rely on. */
  predicate Current(s: State, p: WorkerPc) {
    && (!p.WDone? && !Stopped(s) ==> s.thread.Some?)
    && (Past(p) ==> PastOk(s, p.tp))
    && (AtToken(p) ==> FailZone(s.user) && s.conn.None?)
    && (AtLease(p) ==> s.conn.None? && s.token.None?)
    && (Past(p) || AtToken(p) ==> s.thread.Some? || NoThread(s.user))
    && (!Stopped(s) && !Ended(p) && !AtToken(p) && !AtLease(p) ==> s.conn.Some? && s.token.Some?)
    && (Ended(p) ==> s.closed || Stopped(s) || (s.conn.None? && s.token.None?))
    && RemainingInBounds(p)
  }

  /** A renew of this worker is on the wire. */
  predicate AwaitsRenew(pc: WorkerPc) { pc.Tick? && pc.tp.Renewing? && pc.tp.np.RenewRecv? }

  /** A renew of this worker has failed and is about to be handled. */
  predicate RenewFailed(pc: WorkerPc) { pc.Tick? && pc.tp.Failing? && (pc.tp.fp.FailChk? || pc.tp.fp.FailConn?) }

  predicate Holdings(s: State, p: Option<WorkerPc>) {
    && (s.token.Some? && (s.user.Idle? || s.user.WaitTok? || (s.user.Grant? && s.user.gp.Started?)) ==> s.thread.Some?)
    && (s.conn.Some? && s.token.Some? ==>
          || ConnAt(s, s.conn.value).phase == Holding(s.token.value)
          || ReleasedZone(s.user)
          || (p.Some? && (AwaitsRenew(p.value) || RenewFailed(p.value))))
    && (p.Some? && AwaitsRenew(p.value) ==> ConnAt(s, p.value.tp.np.c).phase == RenewSent(p.value.tp.np.tok))
    && (s.conn.Some? && s.token.None? ==>
          p.None? && (ConnAt(s, s.conn.value).phase == InQueue || PendingZone(s.user)))
    && (s.conn.None? && s.token.Some? ==>
          (p.Some? && AtToken(p.value)) || (s.user.Clear? && !s.user.lp.ClrLease?))
  }

  predicate BeforeCommand(p: Phase) { p.Fresh? || p.Ready? }

  predicate RelHands(s: State, p: RelPc) {
    match p
    case RelTok(c) => s.conn == Some(c)
    case RelSend(c, t) => s.conn == Some(c) && s.token == Some(t)
    case RelRecv(c, _) => s.conn == Some(c) && ConnAt(s, c).phase == ReleaseSent
    case _ => true
  }

  predicate ShutHands(s: State, p: ShutPc) {
    p.ShutRead? || ((s.conn == Some(p.c) || s.conn.None?) && (p.ShutUnlock? || p.ShutDetach? ==> !ConnAt(s, p.c).open))
  }

  predicate OpenHands(s: State, p: OpenPc) {
    && s.token.None?
    && (p.Require? <==> s.conn.Some?)
    && match p
       case AuthSend(c) => ConnAt(s, c).phase == Fresh
       case AuthRecv(c) => ConnAt(s, c).phase == AuthSent
       case Adopt(c) => BeforeCommand(ConnAt(s, c).phase)
       case Require => BeforeCommand(ConnAt(s, s.conn.value).phase)
       case _ => true
  }

  predicate InvokeHands(s: State, p: InvokePc, cmd: Cmd) {
    && s.conn == Some(p.c) && s.token.None?
    && var phase := ConnAt(s, p.c).phase;
       match p
       case CmdSend(_) => if cmd.CmdWait? then phase.InQueue? else BeforeCommand(phase)
       case CmdRecv(_) => if cmd.CmdWait? then phase.WaitSent? else if cmd.CmdEnqueue? then phase.EnqueueSent? else phase.AcquireSent?
  }

  predicate GrantHands(s: State, p: GrantPc) {
    && s.conn.Some?
    && (if p.PutTok? then s.token.None? && ConnAt(s, s.conn.value).phase == Holding(p.tok) else s.token.Some?)
  }

  /** What the user operation knows about the connection, token and lease it works on. */
  predicate Hands(s: State) {
    match s.user
    case Rel(p) => RelHands(s, p)
    case Shut(p, _) => ShutHands(s, p)
    case Clear(p, th) => s.conn.None? && (p.ClrLease? ==> s.token.None?) && (p.ClrJoin? || p.ClrThread? ==> th.Plain?)
    case Rearming(_, _) => s.conn.None? && s.token.None?
    case Opening(p, _) => OpenHands(s, p)
    case Invoke(p, cmd) => InvokeHands(s, p, cmd)
    case Grant(p, _) => GrantHands(s, p)
    case WaitConn => s.token.None?
    case _ => true
  }

  /** The worker that holds the I/O lock has taken c out of the instance and will close it. */
  predicate InHandler(s: State, c: nat) {
    s.io.Some? && s.io.value.Worker?
    && var pc := PcAt(s, s.io.value.id); (AtToken(pc) || TakenOut(pc)) && pc.tp.fp.c == c
  }

  /** An open connection is the instance's, or in the hands of the one function opening or closing it. */
  predicate Accounted(s: State, c: nat) {
    ConnAt(s, c).open ==> s.conn == Some(c) || (s.user.Opening? && UserConn(s.user) == Some(c)) || InHandler(s, c)
  }

  ghost predicate Conns(s: State) {
    forall c :: 0 <= c < |s.conns| ==> s.conns[c].phase != Bad && Accounted(s, c)
  }

  /** The user operation, the worker p of the current attempt, and the fields they share. */
  predicate Joint(s: State, p: Option<WorkerPc>) {
    Flags(s, p) && Threads(s, p) && (p.Some? ==> Current(s, p.value)) && Holdings(s, p) && Hands(s)
  }

  /** What holds of all workers and connections at once. */
  ghost predicate Wiring(s: State) { Numbering(s) && Locking(s) && Workers(s) && Conns(s) }

  ghost predicate Inv(s: State) { Wiring(s) && Joint(s, Cur(s)) }

  // ----- the user and the current worker: every user step keeps what they agree on

  lemma CallJoint(s: State, p: Option<WorkerPc>, api: Api)
    requires Joint(s, p) && s.user.Idle?
    ensures Joint(s.(user := Begin(api)), p)
  {
  }

  lemma StopJoint(s: State, p: Option<WorkerPc>)
    requires Joint(s, p) && s.user.Stop? && !s.user.sp.StopJoin?
    ensures Joint(StopGo(s, s.user.sp, s.user.k), p)
  {
  }

  lemma JoinJoint(s: State, p: Option<WorkerPc>)
    requires Joint(s, p) && AtJoin(s.user) && (s.user.Clear? && p.Some? ==> !AtToken(p.value))
    ensures Joint(LeaveJoin(s), p)
  {
  }

  lemma RelJoint(s: State, p: Option<WorkerPc>)
    requires Joint(s, p) && s.user.Rel? && Deterministic(s.user) && (s.user.rp.RelLock? && p.Some? ==> !p.value.Tick?)
    ensures Joint(RelGo(s, s.user.rp), p)
  {
  }

  lemma WriteRelJoint(s: State, p: Option<WorkerPc>)
    requires Joint(s, p) && AtSend(s.user) && s.user.Rel? && Numbering(s)
    ensures Joint(UserWrite(s), p)
  {
  }

  lemma WriteAuthJoint(s: State, p: Option<WorkerPc>)
    requires Joint(s, p) && AtSend(s.user) && s.user.Opening? && Numbering(s)
    ensures Joint(UserWrite(s), p)
  {
  }

  lemma WriteCmdJoint(s: State, p: Option<WorkerPc>)
    requires Joint(s, p) && AtSend(s.user) && s.user.Invoke? && Numbering(s)
    ensures Joint(UserWrite(s), p)
  {
  }

  lemma WriteJoint(s: State, p: Option<WorkerPc>)
    requires Joint(s, p) && AtSend(s.user) && Numbering(s)
    ensures Joint(UserWrite(s), p)
  {
    if s.user.Rel? {
      WriteRelJoint(s, p);
    } else if s.user.Opening? {
      WriteAuthJoint(s, p);
    } else {
      WriteCmdJoint(s, p);
    }
  }

  lemma RaiseJoint(s: State, p: Option<WorkerPc>, closes: bool)
    requires Joint(s, p) && (AtSend(s.user) || AtRecv(s.user)) && Numbering(s)
    ensures Joint((if closes then Abort(s, CommandConn(s.user)) else s).(user := UserFailPc(s.user)), p)
  {
  }

  lemma HeardRelJoint(s: State, p: Option<WorkerPc>, r: Reply)
    requires Joint(s, p) && AtRecv(s.user) && s.user.Rel? && Numbering(s)
    ensures Joint(UserHeard(s, r), p)
  {
  }

  lemma HeardAuthJoint(s: State, p: Option<WorkerPc>, r: Reply)
    requires Joint(s, p) && AtRecv(s.user) && s.user.Opening? && Numbering(s)
    ensures Joint(UserHeard(s, r), p)
  {
  }

  lemma HeardCmdJoint(s: State, p: Option<WorkerPc>, r: Reply)
    requires Joint(s, p) && AtRecv(s.user) && s.user.Invoke? && Numbering(s)
    ensures Joint(UserHeard(s, r), p)
  {
  }

  lemma ClsJoint(s: State, p: Option<WorkerPc>)
    requires Joint(s, p) && s.user.Cls?
    ensures Joint(ClsGo(s, s.user.cp, s.user.th), p)
  {
  }

  lemma ShutReadJoint(s: State, p: Option<WorkerPc>)
    requires Joint(s, p) && s.user.Shut? && s.user.hp.ShutRead?
    requires s.conn.None? && s.thread.None? && p.Some? ==> !AtToken(p.value)
    ensures Joint(ShutGo(s, s.user.hp, s.user.th), p)
  {
  }

  lemma ShutDetachJoint(s: State, p: Option<WorkerPc>)
    requires Joint(s, p) && s.user.Shut? && s.user.hp.ShutDetach?
    ensures Joint(ShutGo(s, s.user.hp, s.user.th), p)
  {
  }

  lemma ShutWorkJoint(s: State, p: Option<WorkerPc>)
    requires Joint(s, p) && s.user.Shut? && !s.user.hp.ShutRead? && !s.user.hp.ShutDetach?
    requires s.user.hp.ShutLock? && p.Some? ==> !p.value.Tick?
    ensures Joint(ShutGo(s, s.user.hp, s.user.th), p)
  {
  }

  lemma ShutJoint(s: State, p: Option<WorkerPc>)
    requires Joint(s, p) && s.user.Shut?
    requires s.user.hp.ShutRead? && s.conn.None? && s.thread.None? && p.Some? ==> !AtToken(p.value)
    requires s.user.hp.ShutLock? && p.Some? ==> !p.value.Tick?
    ensures Joint(ShutGo(s, s.user.hp, s.user.th), p)
  {
    if s.user.hp.ShutRead? {
      ShutReadJoint(s, p);
    } else if s.user.hp.ShutDetach? {
      ShutDetachJoint(s, p);
    } else {
      ShutWorkJoint(s, p);
    }
  }

  lemma ClearJoint(s: State, p: Option<WorkerPc>)
    requires Joint(s, p) && s.user.Clear? && !s.user.lp.ClrJoin?
    ensures Joint(ClearGo(s, s.user.lp, s.user.th), p)
  {
  }

  lemma RearmFlagJoint(s: State, p: Option<WorkerPc>)
    requires Joint(s, p) && s.user.Rearming? && s.user.ap.RearmFlag?
    ensures Joint(RearmGo(s, s.user.ap, s.user.op), p)
  {
  }

  lemma DialJoint(s: State, p: Option<WorkerPc>, l: Label)
    requires Joint(s, p) && s.user.Opening? && (l.UDialOk? || l.UDialFail? || l.UNoAuth?) && UserEnabled(s, l) && Numbering(s)
    ensures Joint(UserNext(s, l), p)
  {
  }

  lemma OpenJoint(s: State, p: Option<WorkerPc>)
    requires Joint(s, p) && s.user.Opening? && Deterministic(s.user)
    ensures Joint(OpenGo(s, s.user.xp, s.user.op), p)
  {
  }

  lemma WaitJoint(s: State, p: Option<WorkerPc>)
    requires Joint(s, p) && (s.user.WaitTok? || s.user.WaitConn?)
    ensures Joint(UserGo(s), p)
  {
  }

  lemma PutJoint(s: State, p: Option<WorkerPc>)
    requires Joint(s, p) && s.user.Grant? && (s.user.gp.PutTok? || s.user.gp.PutLease?)
    ensures Joint(GrantGo(s, s.user.gp, s.user.cmd), p)
  {
  }

  // ----- the same steps keep the wiring

  /** A step of the user that leaves connections, workers and the I/O lock alone. */
  lemma QuietWiring(s: State, t: State)
    requires Wiring(s)
    requires t.workers == s.workers && t.conns == s.conns && t.io == s.io && t.attempt == s.attempt && t.conn == s.conn
    requires t.raised == s.raised || t.raised == s.raised + {s.attempt}
    requires HasLock(t.user) == HasLock(s.user)
    requires t.user.Opening? == s.user.Opening? && (s.user.Opening? ==> UserConn(t.user) == UserConn(s.user))
    ensures Wiring(t) && Cur(t) == Cur(s)
  {
  }

  /** An action on one connection that does not open it. */
  lemma TouchWiring(s: State, c: nat, k: Conn)
    requires Wiring(s) && k.phase != Bad && (k.open ==> ConnAt(s, c).open)
    ensures Wiring(SetConn(s, c, k)) && Cur(SetConn(s, c, k)) == Cur(s)
  {
  }

  lemma RelWiring(s: State)
    requires Wiring(s) && s.user.Rel? && Deterministic(s.user) && (s.user.rp.RelLock? ==> s.io.None?)
    ensures var t := RelGo(s, s.user.rp); Wiring(t) && Cur(t) == Cur(s)
  {
  }

  /** The frame that the user is about to write is legal. */
  lemma WriteLegal(s: State)
    requires Inv(s) && AtSend(s.user)
    ensures Advance(ConnAt(s, CommandConn(s.user)).phase, Sent(UserFrame(s.user))) != Bad
  {
  }

  /** Sending moves neither the I/O lock nor a connection being opened. */
  lemma AfterSendZones(u: UserPc)
    requires AtSend(u)
    ensures var v := AfterSend(u); HasLock(v) == HasLock(u) && v.Opening? == u.Opening? && (u.Opening? ==> UserConn(v) == UserConn(u))
  {
  }

  lemma WriteWiring(s: State)
    requires Wiring(s) && AtSend(s.user) && Advance(ConnAt(s, CommandConn(s.user)).phase, Sent(UserFrame(s.user))) != Bad
    ensures var t := UserWrite(s); Wiring(t) && Cur(t) == Cur(s)
  {
    var c := CommandConn(s.user);
    var f := UserFrame(s.user);
    TouchWiring(s, c, Emit(ConnAt(s, c), Sent(f)).(busy := Some(User)));
    AfterSendZones(s.user);
    QuietWiring(Write(s, c, User, f), UserWrite(s));
  }

  lemma RaiseWiring(s: State, closes: bool)
    requires Wiring(s) && (AtSend(s.user) || AtRecv(s.user))
    ensures var t := (if closes then Abort(s, CommandConn(s.user)) else s).(user := UserFailPc(s.user)); Wiring(t) && Cur(t) == Cur(s)
  {
    var c := CommandConn(s.user);
    var u := if closes then Abort(s, c) else s;
    if c < |s.conns| {
      TouchWiring(s, c, ConnAt(s, c).(open := false, busy := None));
    }
    QuietWiring(u, u.(user := UserFailPc(s.user)));
  }

  /** A reply is legal wherever the user waits for one. */
  lemma HeardLegal(s: State, r: Reply)
    requires Hands(s) && AtRecv(s.user)
    ensures Advance(ConnAt(s, CommandConn(s.user)).phase, Got(r)) != Bad
  {
  }

  /** Reading a reply moves neither the I/O lock nor a connection being opened. */
  lemma AfterHeardZones(u: UserPc, r: Reply)
    requires AtRecv(u)
    ensures var v := AfterHeard(u, r);
      HasLock(v) == HasLock(u) && v.Opening? == u.Opening? && (u.Opening? ==> UserConn(v) == UserConn(u))
  {
  }

  lemma HeardWiring(s: State, r: Reply)
    requires Wiring(s) && AtRecv(s.user) && Advance(ConnAt(s, CommandConn(s.user)).phase, Got(r)) != Bad
    ensures var t := UserHeard(s, r); Wiring(t) && Cur(t) == Cur(s)
  {
    var c := CommandConn(s.user);
    TouchWiring(s, c, Emit(ConnAt(s, c), Got(r)).(busy := None));
    AfterHeardZones(s.user, r);
    QuietWiring(Read(s, c, r), UserHeard(s, r));
  }

  lemma ShutDownWiring(s: State)
    requires Wiring(s) && s.user.Shut? && (s.user.hp.ShutRead? || s.user.hp.ShutDown? || s.user.hp.ShutClose?)
    ensures var t := ShutGo(s, s.user.hp, s.user.th); Wiring(t) && Cur(t) == Cur(s)
  {
    var u := s;
    if !s.user.hp.ShutRead? && s.user.hp.c < |s.conns| {
      var c := s.user.hp.c;
      var k := if s.user.hp.ShutDown? then ConnAt(s, c).(shut := true) else ConnAt(s, c).(open := false);
      TouchWiring(s, c, k);
      u := SetConn(s, c, k);
    }
    QuietWiring(u, ShutGo(s, s.user.hp, s.user.th));
  }

  lemma ShutLockWiring(s: State)
    requires Wiring(s) && Hands(s) && s.user.Shut?
    requires (s.user.hp.ShutLock? && s.io.None?) || s.user.hp.ShutUnlock? || s.user.hp.ShutDetach?
    ensures var t := ShutGo(s, s.user.hp, s.user.th); Wiring(t) && Cur(t) == Cur(s)
  {
  }

  lemma DialledWiring(s: State)
    requires Wiring(s) && Hands(s) && s.user.Opening? && s.user.xp.Dial?
    ensures var t := UserNext(s, UDialOk); Wiring(t) && Cur(t) == Cur(s)
  {
  }

  lemma UndialledWiring(s: State)
    requires Wiring(s) && s.user.Opening? && s.user.xp.Dial?
    ensures var t := UserNext(s, UDialFail); Wiring(t) && Cur(t) == Cur(s)
  {
  }

  lemma DialWiring(s: State, l: Label)
    requires Wiring(s) && Hands(s) && s.user.Opening? && (l.UDialOk? || l.UDialFail? || l.UNoAuth?) && UserEnabled(s, l)
    ensures var t := UserNext(s, l); Wiring(t) && Cur(t) == Cur(s)
  {
    match l
    case UDialOk => DialledWiring(s);
    case UDialFail => UndialledWiring(s);
    case UNoAuth => QuietWiring(s, UserNext(s, l));
  }

  lemma AuthCloseWiring(s: State, c: nat)
    requires Wiring(s) && s.user.Opening? && s.user.xp == AuthClose(c)
    ensures var t := OpenGo(s, s.user.xp, s.user.op); Wiring(t) && Cur(t) == Cur(s)
  {
  }

  lemma AdoptWiring(s: State, c: nat)
    requires Wiring(s) && Hands(s) && s.user.Opening? && s.user.xp == Adopt(c)
    ensures var t := OpenGo(s, s.user.xp, s.user.op); Wiring(t) && Cur(t) == Cur(s)
  {
  }

  lemma RequireWiring(s: State)
    requires Wiring(s) && s.user.Opening? && s.user.xp.Require?
    ensures var t := OpenGo(s, s.user.xp, s.user.op); Wiring(t) && Cur(t) == Cur(s)
  {
  }

  // ----- the steps that change the current worker or the attempt

  lemma RearmEventKeeps(s: State)
    requires Inv(s) && s.user.Rearming? && s.user.ap.RearmEvent?
    ensures Inv(RearmGo(s, s.user.ap, s.user.op))
  {
    var t := RearmGo(s, s.user.ap, s.user.op);
    assert Cur(t).None?;
  }

  /** The new worker comes last, and no earlier one has the current event. */
  lemma StartWiring(s: State)
    requires Wiring(s) && Cur(s).None? && s.user.Grant? && s.user.gp.Start?
    ensures var t := GrantGo(s, s.user.gp, s.user.cmd); Wiring(t) && Cur(t) == Some(WNew)
  {
  }

  lemma StartJoint(s: State)
    requires Joint(s, None) && s.user.Grant? && s.user.gp.Start?
    ensures Joint(GrantGo(s, s.user.gp, s.user.cmd), Some(WNew))
  {
  }

  lemma StartKeeps(s: State)
    requires Inv(s) && s.user.Grant? && s.user.gp.Start?
    ensures Inv(GrantGo(s, s.user.gp, s.user.cmd))
  {
    StartWiring(s);
    StartJoint(s);
  }

  /** The started worker is the last one and leaves its first place. */
  lemma StartedWiring(s: State)
    requires Wiring(s) && Cur(s) == Some(WNew) && s.user.Grant? && s.user.gp == Started(|s.workers| - 1)
    ensures var t := GrantGo(s, s.user.gp, s.user.cmd); Wiring(t) && Cur(t) == Some(WInit)
  {
  }

  lemma StartedJoint(s: State)
    requires Joint(s, Some(WNew)) && s.user.Grant? && s.user.gp.Started?
    ensures Joint(GrantGo(s, s.user.gp, s.user.cmd), Some(WInit))
  {
  }

  lemma StartedKeeps(s: State)
    requires Inv(s) && s.user.Grant? && s.user.gp.Started?
    ensures Inv(GrantGo(s, s.user.gp, s.user.cmd))
  {
    StartedWiring(s);
    StartedJoint(s);
  }

  // ----- worker steps

  /** A step of a worker whose attempt is over changes nothing that the current one relies on. */
  lemma StaleJoint(s: State, p: Option<WorkerPc>, i: nat, pc: WorkerPc, ch: WorkerChoice)
    requires Joint(s, p) && StalePc(pc) && WorkerEnabled(s, pc, true, ch)
    ensures Joint(WorkerEffect(s, i, pc, ch), p) && StalePc(WorkerGoes(s, pc, true, ch))
  {
    if Dropping(pc) {
      CloseJoint(s, p, pc.tp.fp.c);
    } else if AtLease(pc) || pc.Updating? {
      LeaseJoint(s, p, WorkerEffect(s, i, pc, ch).lease);
    } else if pc.WLock? || pc.Tick? {
      LockJoint(s, p, WorkerEffect(s, i, pc, ch).io);
    }
  }

  lemma CloseJoint(s: State, p: Option<WorkerPc>, c: nat)
    requires Joint(s, p)
    ensures Joint(CloseConn(s, c), p)
  {
  }

  lemma LeaseJoint(s: State, p: Option<WorkerPc>, lease: int)
    requires Joint(s, p)
    ensures Joint(s.(lease := lease), p)
  {
  }

  lemma LockJoint(s: State, p: Option<WorkerPc>, io: Option<Who>)
    requires Joint(s, p)
    ensures Joint(s.(io := io), p)
  {
  }

  lemma SetPcJoint(s: State, p: Option<WorkerPc>, i: nat, pc: WorkerPc)
    requires Joint(s, p)
    ensures Joint(SetPc(s, i, pc), p)
  {
  }

  lemma LoopJoint(s: State, i: nat, pc: WorkerPc, ch: WorkerChoice)
    requires Joint(s, Some(pc)) && !pc.Tick? && !pc.Updating? && WorkerEnabled(s, pc, Stopped(s), ch)
    ensures Joint(WorkerEffect(s, i, pc, ch), Some(WorkerGoes(s, pc, Stopped(s), ch)))
  {
  }

  lemma CheckJoint(s: State, p: CheckPc)
    requires Joint(s, Some(Tick(Check(p))))
    ensures Joint(s, Some(Tick(CheckGoes(s, p, Stopped(s)))))
  {
  }

  /** The renew is written, or raises before it is. */
  lemma RenewSendJoint(s: State, i: nat, p: RenewPc, ch: WorkerChoice)
    requires Joint(s, Some(Tick(Renewing(p)))) && TickEnabled(s, Renewing(p), ch) && p.RenewSend?
    ensures Joint(RenewEffect(s, i, p, ch), Some(Tick(RenewGoes(p, ch))))
  {
  }

  /** The renew is answered, or fails. */
  lemma RenewRecvJoint(s: State, i: nat, p: RenewPc, ch: WorkerChoice)
    requires Joint(s, Some(Tick(Renewing(p)))) && TickEnabled(s, Renewing(p), ch) && p.RenewRecv?
    ensures Joint(RenewEffect(s, i, p, ch), Some(Tick(RenewGoes(p, ch))))
  {
  }

  lemma RenewJoint(s: State, i: nat, p: RenewPc, ch: WorkerChoice)
    requires Joint(s, Some(Tick(Renewing(p)))) && TickEnabled(s, Renewing(p), ch)
    ensures Joint(RenewEffect(s, i, p, ch), Some(Tick(RenewGoes(p, ch))))
  {
    if p.RenewSend? {
      RenewSendJoint(s, i, p, ch);
    } else {
      RenewRecvJoint(s, i, p, ch);
    }
  }

  /** The handler finds the connection still the instance's, or not, and takes it out. */
  lemma FailFindJoint(s: State, p: FailPc)
    requires Joint(s, Some(Tick(Failing(p)))) && (p.FailChk? || p.FailConn?)
    ensures Joint(FailEffect(s, p), Some(Tick(FailGoes(s, p))))
  {
  }

  /** It clears the token. */
  lemma FailTokJoint(s: State, p: FailPc)
    requires Joint(s, Some(Tick(Failing(p)))) && p.FailTok?
    ensures Joint(FailEffect(s, p), Some(Tick(FailGoes(s, p))))
  {
  }

  /** It clears the lease. */
  lemma FailLeaseJoint(s: State, p: FailPc)
    requires Joint(s, Some(Tick(Failing(p)))) && p.FailLease?
    ensures Joint(FailEffect(s, p), Some(Tick(FailGoes(s, p))))
  {
  }

  /** It closes the connection. */
  lemma FailCloseJoint(s: State, p: FailPc)
    requires Joint(s, Some(Tick(Failing(p)))) && p.FailClose?
    ensures Joint(FailEffect(s, p), Some(Tick(FailGoes(s, p))))
  {
    CloseJoint(s, Some(Tick(Failing(p))), p.c);
    DroppedJoint(CloseConn(s, p.c), p.c);
  }

  lemma DroppedJoint(s: State, c: nat)
    requires Joint(s, Some(Tick(Failing(FailClose(c)))))
    ensures Joint(s, Some(Tick(Unlock(None))))
  {
  }

  lemma FailJoint(s: State, p: FailPc)
    requires Joint(s, Some(Tick(Failing(p))))
    ensures Joint(FailEffect(s, p), Some(Tick(FailGoes(s, p))))
  {
    if p.FailChk? || p.FailConn? {
      FailFindJoint(s, p);
    } else if p.FailTok? {
      FailTokJoint(s, p);
    } else if p.FailLease? {
      FailLeaseJoint(s, p);
    } else {
      FailCloseJoint(s, p);
    }
  }

  lemma UnlockJoint(s: State, r: Option<int>)
    requires Joint(s, Some(Tick(Unlock(r))))
    ensures Joint(s.(io := None), Some(if r.None? then WDone else WAfter(r.value)))
  {
  }

  lemma UpdateJoint(s: State, i: nat, p: UpdatePc, rem: int)
    requires Joint(s, Some(Updating(p, rem)))
    ensures Joint(WorkerEffect(s, i, Updating(p, rem), Go), Some(UpdateGoes(s, p, rem)))
  {
  }

  /** The step of the current attempt's worker. */
  lemma CurrentJoint(s: State, i: nat, pc: WorkerPc, ch: WorkerChoice)
    requires Joint(s, Some(pc)) && WorkerEnabled(s, pc, Stopped(s), ch)
    ensures Joint(WorkerEffect(s, i, pc, ch), Some(WorkerGoes(s, pc, Stopped(s), ch)))
  {
    match pc
    case Tick(Check(p)) => CheckJoint(s, p);
    case Tick(Renewing(p)) => RenewJoint(s, i, p, ch);
    case Tick(Failing(p)) => FailJoint(s, p);
    case Tick(Unlock(r)) => UnlockJoint(s, r);
    case Updating(p, rem) => UpdateJoint(s, i, p, rem);
    case _ => LoopJoint(s, i, pc, ch);
  }

  ghost predicate At(s: State, i: nat, pc: WorkerPc) { i < |s.workers| && s.workers[i].pc == pc }

  /** A worker moves between places that the wiring does not tell apart. */
  lemma MoveWiring(s: State, i: nat, pc: WorkerPc, goes: WorkerPc)
    requires Wiring(s) && At(s, i, pc) && pc.Tick? == goes.Tick?
    requires (s.workers[i].ev < s.attempt ==> StalePc(goes)) && RemainingInBounds(goes)
    requires !AtToken(pc) && !TakenOut(pc) && !AtToken(goes) && !TakenOut(goes)
    requires goes.Tick? && goes.tp.Failing? ==> goes.tp.fp.c < |s.conns|
    ensures Wiring(SetPc(s, i, goes))
  {
  }

  lemma LockWiring(s: State, i: nat)
    requires Wiring(s) && At(s, i, WLock) && s.io.None?
    ensures Wiring(SetPc(s.(io := Some(Worker(i))), i, Tick(Check(ChkClosed))))
  {
  }

  lemma UnlockWiring(s: State, i: nat, r: Option<int>)
    requires Wiring(s) && At(s, i, Tick(Unlock(r)))
    ensures Wiring(SetPc(s.(io := None), i, if r.None? then WDone else WAfter(r.value)))
  {
  }

  /** What a worker at its renew command knows: the connection is the instance's and the frame or reply is legal. */
  lemma RenewLegal(s: State, p: RenewPc)
    requires Joint(s, Some(Tick(Renewing(p))))
    ensures s.conn == Some(p.c)
    ensures ConnAt(s, p.c).phase == if p.RenewSend? then Holding(p.tok) else RenewSent(p.tok)
  {
  }

  lemma RenewWiring(s: State, i: nat, p: RenewPc, ch: WorkerChoice)
    requires Wiring(s) && At(s, i, Tick(Renewing(p))) && TickEnabled(s, Renewing(p), ch)
    requires s.conn == Some(p.c)
    requires ConnAt(s, p.c).phase == if p.RenewSend? then Holding(p.tok) else RenewSent(p.tok)
    ensures Wiring(RenewEffect(s, i, p, ch)) && At(RenewEffect(s, i, p, ch), i, Tick(Renewing(p)))
    ensures RenewEffect(s, i, p, ch).attempt == s.attempt && |RenewEffect(s, i, p, ch).conns| == |s.conns|
    ensures RenewEffect(s, i, p, ch).workers == s.workers
  {
    var k := ConnAt(s, p.c);
    var to := if ch.SendOk? then Emit(k, Sent(Renew(p.tok))).(busy := Some(Worker(i)))
              else if ch.Heard? then Emit(k, Got(ch.r)).(busy := None)
              else k.(open := false, busy := None);
    TouchWiring(s, p.c, to);
  }

  lemma DetachWiring(s: State, i: nat, c: nat)
    requires Wiring(s) && At(s, i, Tick(Failing(FailConn(c)))) && s.workers[i].ev == s.attempt && s.conn == Some(c)
    ensures Wiring(SetPc(s.(conn := None), i, Tick(Failing(FailTok(c)))))
  {
  }

  lemma WipeTokWiring(s: State, i: nat, c: nat)
    requires Wiring(s) && At(s, i, Tick(Failing(FailTok(c)))) && s.conn.None? && !s.user.Opening?
    ensures Wiring(SetPc(s.(token := None), i, Tick(Failing(FailLease(c)))))
  {
  }

  lemma WipeLeaseWiring(s: State, i: nat, c: nat)
    requires Wiring(s) && At(s, i, Tick(Failing(FailLease(c))))
    ensures Wiring(SetPc(s.(lease := 0), i, Tick(Failing(FailClose(c)))))
  {
  }

  lemma DropWiring(s: State, i: nat, c: nat)
    requires Wiring(s) && At(s, i, Tick(Failing(FailClose(c))))
    ensures Wiring(SetPc(CloseConn(s, c), i, Tick(Unlock(None))))
  {
  }

  // ----- the invariant holds along every run without a slip

  lemma StopKeeps(s: State)
    requires Inv(s) && UserEnabled(s, UGo) && s.user.Stop?
    ensures Inv(UserGo(s))
  {
    StopJoint(s, Cur(s));
    QuietWiring(s, UserGo(s));
  }

  lemma ClsKeeps(s: State)
    requires Inv(s) && s.user.Cls?
    ensures Inv(UserGo(s))
  {
    ClsJoint(s, Cur(s));
    QuietWiring(s, UserGo(s));
  }

  lemma ClearKeeps(s: State)
    requires Inv(s) && UserEnabled(s, UGo) && s.user.Clear?
    ensures Inv(UserGo(s))
  {
    ClearJoint(s, Cur(s));
    QuietWiring(s, UserGo(s));
  }

  lemma ShutKeeps(s: State)
    requires Inv(s) && UserEnabled(s, UGo) && !TokenSlip(s, UGo) && s.user.Shut?
    ensures Inv(UserGo(s))
  {
    ShutJoint(s, Cur(s));
    if s.user.hp.ShutRead? || s.user.hp.ShutDown? || s.user.hp.ShutClose? {
      ShutDownWiring(s);
    } else {
      ShutLockWiring(s);
    }
  }

  lemma RelKeeps(s: State)
    requires Inv(s) && UserEnabled(s, UGo) && s.user.Rel?
    ensures Inv(UserGo(s))
  {
    RelJoint(s, Cur(s));
    RelWiring(s);
  }

  lemma OpenKeeps(s: State)
    requires Inv(s) && UserEnabled(s, UGo) && s.user.Opening?
    ensures Inv(UserGo(s))
  {
    OpenJoint(s, Cur(s));
    match s.user.xp
    case AuthClose(c) => AuthCloseWiring(s, c);
    case Adopt(c) => AdoptWiring(s, c);
    case Require => RequireWiring(s);
  }

  lemma GrantKeeps(s: State)
    requires Inv(s) && s.user.Grant?
    ensures Inv(UserGo(s))
  {
    if s.user.gp.Start? {
      StartKeeps(s);
    } else if s.user.gp.Started? {
      StartedKeeps(s);
    } else {
      PutJoint(s, Cur(s));
      QuietWiring(s, UserGo(s));
    }
  }

  /** Re-arming and the start of wait. */
  lemma BeginningKeeps(s: State)
    requires Inv(s) && (s.user.Rearming? || s.user.WaitTok? || s.user.WaitConn?)
    ensures Inv(UserGo(s))
  {
    if s.user.Rearming? && s.user.ap.RearmEvent? {
      RearmEventKeeps(s);
    } else {
      if s.user.Rearming? { RearmFlagJoint(s, Cur(s)); } else { WaitJoint(s, Cur(s)); }
      QuietWiring(s, UserGo(s));
    }
  }

  lemma UserGoKeeps(s: State)
    requires Inv(s) && UserEnabled(s, UGo) && !TokenSlip(s, UGo)
    ensures Inv(UserGo(s))
  {
    match s.user
    case Rel(_) => RelKeeps(s);
    case Shut(_, _) => ShutKeeps(s);
    case Opening(_, _) => OpenKeeps(s);
    case Grant(_, _) => GrantKeeps(s);
    case Stop(_, _) => StopKeeps(s);
    case Cls(_, _) => ClsKeeps(s);
    case Clear(_, _) => ClearKeeps(s);
    case _ => BeginningKeeps(s);
  }

  lemma CommandKeeps(s: State, l: Label)
    requires Inv(s) && (l.USendOk? || l.USendFail? || l.UIoFail?) && UserEnabled(s, l)
    ensures Inv(UserNext(s, l))
  {
    if l.USendOk? {
      WriteLegal(s);
      WriteJoint(s, Cur(s));
      WriteWiring(s);
    } else {
      var closes := l.UIoFail? || l.closes;
      RaiseJoint(s, Cur(s), closes);
      RaiseWiring(s, closes);
    }
  }

  lemma HeardKeeps(s: State, r: Reply)
    requires Inv(s) && UserEnabled(s, UHeard(r))
    ensures Inv(UserHeard(s, r))
  {
    HeardLegal(s, r);
    HeardWiring(s, r);
    if s.user.Rel? {
      HeardRelJoint(s, Cur(s), r);
    } else if s.user.Opening? {
      HeardAuthJoint(s, Cur(s), r);
    } else {
      HeardCmdJoint(s, Cur(s), r);
    }
  }

  lemma CallKeeps(s: State, api: Api)
    requires Inv(s) && s.user.Idle?
    ensures Inv(s.(user := Begin(api)))
  {
    CallJoint(s, Cur(s), api);
    QuietWiring(s, s.(user := Begin(api)));
  }

  lemma JoinKeeps(s: State, l: Label)
    requires Inv(s) && (l.UJoined? || l.UGaveUp?) && UserEnabled(s, l) && !TokenSlip(s, l)
    ensures Inv(LeaveJoin(s))
  {
    JoinJoint(s, Cur(s));
    QuietWiring(s, LeaveJoin(s));
  }

  lemma DialKeeps(s: State, l: Label)
    requires Inv(s) && (l.UDialOk? || l.UDialFail? || l.UNoAuth?) && UserEnabled(s, l)
    ensures Inv(UserNext(s, l))
  {
    DialJoint(s, Cur(s), l);
    DialWiring(s, l);
  }

  lemma UserKeeps(s: State, l: Label)
    requires Inv(s) && !l.WorkerStep? && UserEnabled(s, l) && !TokenSlip(s, l)
    ensures Inv(UserNext(s, l))
  {
    match l
    case Call(api) => CallKeeps(s, api);
    case UGo => UserGoKeeps(s);
    case UJoined => JoinKeeps(s, l);
    case UGaveUp => JoinKeeps(s, l);
    case UHeard(r) => HeardKeeps(s, r);
    case UDialOk => DialKeeps(s, l);
    case UDialFail => DialKeeps(s, l);
    case UNoAuth => DialKeeps(s, l);
    case _ => CommandKeeps(s, l);
  }

  lemma FailWiring(s: State, i: nat, p: FailPc)
    requires Inv(s) && At(s, i, Tick(Failing(p)))
    ensures Wiring(SetPc(FailEffect(s, p), i, Tick(FailGoes(s, p))))
  {
    match p
    case FailChk(c) => MoveWiring(s, i, Tick(Failing(p)), Tick(FailGoes(s, p)));
    case FailConn(c) => DetachWiring(s, i, c);
    case FailTok(c) => WipeTokWiring(s, i, c);
    case FailLease(c) => WipeLeaseWiring(s, i, c);
    case FailClose(c) => DropWiring(s, i, c);
  }

  /** Where a renew leaves its worker. */
  lemma RenewPlaces(s: State, p: RenewPc, ch: WorkerChoice)
    requires TickEnabled(s, Renewing(p), ch)
    ensures var goes := Tick(RenewGoes(p, ch));
      RemainingInBounds(goes) && !AtToken(goes) && !TakenOut(goes) && (goes.tp.Failing? ==> goes.tp.fp.c == p.c)
  {
  }

  lemma RenewStepWiring(s: State, i: nat, p: RenewPc, ch: WorkerChoice)
    requires Inv(s) && At(s, i, Tick(Renewing(p))) && TickEnabled(s, Renewing(p), ch)
    ensures Wiring(SetPc(RenewEffect(s, i, p, ch), i, Tick(RenewGoes(p, ch))))
  {
    RenewLegal(s, p);
    RenewWiring(s, i, p, ch);
    RenewPlaces(s, p, ch);
    MoveWiring(RenewEffect(s, i, p, ch), i, Tick(Renewing(p)), Tick(RenewGoes(p, ch)));
  }

  lemma LeaseWiring(s: State, lease: int)
    requires Wiring(s)
    ensures Wiring(s.(lease := lease))
  {
  }

  lemma LoopWiring(s: State, i: nat, ch: WorkerChoice)
    requires Inv(s) && i < |s.workers| && WorkerEnabled(s, s.workers[i].pc, s.workers[i].ev in s.raised, ch)
    requires !s.workers[i].pc.Tick? && !s.workers[i].pc.WLock?
    ensures Wiring(WorkerNext(s, i, ch))
  {
    var pc := s.workers[i].pc;
    var lease := WorkerEffect(s, i, pc, ch).lease;
    LeaseWiring(s, lease);
    MoveWiring(s.(lease := lease), i, pc, WorkerGoes(s, pc, s.workers[i].ev in s.raised, ch));
  }

  lemma TickWiring(s: State, i: nat, p: TickPc, ch: WorkerChoice)
    requires Inv(s) && At(s, i, Tick(p)) && TickEnabled(s, p, ch)
    ensures Wiring(SetPc(TickEffect(s, i, p, ch), i, TickGoes(s, p, s.workers[i].ev in s.raised, ch)))
  {
    match p
    case Check(_) => MoveWiring(s, i, Tick(p), TickGoes(s, p, s.workers[i].ev in s.raised, ch));
    case Unlock(r) => UnlockWiring(s, i, r);
    case Failing(q) => FailWiring(s, i, q);
    case Renewing(q) => RenewStepWiring(s, i, q, ch);
  }

  lemma WorkerWiring(s: State, i: nat, ch: WorkerChoice)
    requires Inv(s) && i < |s.workers| && WorkerEnabled(s, s.workers[i].pc, s.workers[i].ev in s.raised, ch)
    ensures Wiring(WorkerNext(s, i, ch))
  {
    match s.workers[i].pc
    case WLock => LockWiring(s, i);
    case Tick(p) => TickWiring(s, i, p, ch);
    case _ => LoopWiring(s, i, ch);
  }

  lemma CurrentKeeps(s: State, i: nat, ch: WorkerChoice)
    requires Inv(s) && i < |s.workers| && WorkerEnabled(s, s.workers[i].pc, s.workers[i].ev in s.raised, ch)
    requires s.workers[i].ev == s.attempt
    ensures Joint(WorkerNext(s, i, ch), Cur(WorkerNext(s, i, ch)))
  {
    var w := s.workers[i];
    var goes := WorkerGoes(s, w.pc, Stopped(s), ch);
    assert i == |s.workers| - 1;
    CurrentJoint(s, i, w.pc, ch);
    SetPcJoint(WorkerEffect(s, i, w.pc, ch), Some(goes), i, goes);
    EffectKeeps(s, i, w.pc, ch);
  }

  lemma StaleKeeps(s: State, i: nat, ch: WorkerChoice)
    requires Inv(s) && i < |s.workers| && WorkerEnabled(s, s.workers[i].pc, s.workers[i].ev in s.raised, ch)
    requires s.workers[i].ev != s.attempt
    ensures Joint(WorkerNext(s, i, ch), Cur(WorkerNext(s, i, ch)))
  {
    var w := s.workers[i];
    StaleJoint(s, Cur(s), i, w.pc, ch);
    SetPcJoint(WorkerEffect(s, i, w.pc, ch), Cur(s), i, WorkerGoes(s, w.pc, true, ch));
    EffectKeeps(s, i, w.pc, ch);
  }

  /** What no worker step changes. */
  lemma EffectKeeps(s: State, i: nat, pc: WorkerPc, ch: WorkerChoice)
    ensures var t := WorkerEffect(s, i, pc, ch);
      t.workers == s.workers && t.attempt == s.attempt && t.raised == s.raised && t.user == s.user
      && t.thread == s.thread && t.closed == s.closed && |t.conns| == |s.conns|
  {
  }

  lemma WorkerKeeps(s: State, i: nat, ch: WorkerChoice)
    requires Inv(s) && i < |s.workers| && WorkerEnabled(s, s.workers[i].pc, s.workers[i].ev in s.raised, ch)
    ensures Inv(WorkerNext(s, i, ch))
  {
    WorkerWiring(s, i, ch);
    if s.workers[i].ev == s.attempt {
      CurrentKeeps(s, i, ch);
    } else {
      StaleKeeps(s, i, ch);
    }
  }

  /** One step that is not a slip keeps the invariant. */
  lemma NextKeeps(s: State, l: Label)
    requires Inv(s) && Enabled(s, l) && !TokenSlip(s, l)
    ensures Inv(Next(s, l))
  {
    if l.WorkerStep? {
      WorkerKeeps(s, l.i, l.choice);
    } else {
      UserKeeps(s, l);
    }
  }

  lemma InitialInv()
    ensures Inv(INITIAL)
  {
  }

}
