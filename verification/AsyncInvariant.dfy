/** The inductive invariant of the asynchronous machine: no step, cancellations included, breaks it. */
module AsyncInvariant {
  import opened Basics
  import opened Session
  import opened Lifecycle
  import opened AsyncMachine

  /** The connection that an operation has opened and not yet stored. */
  function HandOf(u: UserPc): Option<nat> { if u.Authing? then Some(u.c) else None }

  /** A task that has not ended and was not cancelled. */
  predicate Lively(t: TaskState) { !t.pc.TDone? && !t.cancelled }

  /** What one task relies on; renewing tasks are the holders of the I/O lock. */
  predicate TaskOk(s: State, i: nat) {
    var t := TaskAt(s, i);
    && (Lively(t) ==> s.task == Some(i) && s.token.Some?)
    && (t.pc.TRenew? <==> s.io == Some(Task(i)))
    && (t.pc.TRenew? ==>
          && t.pc.c < |s.conns|
          && ConnAt(s, t.pc.c).phase == RenewSent(t.pc.tok)
          && (!t.cancelled || s.conn == Some(t.pc.c) ==> s.conn == Some(t.pc.c) && s.token == Some(t.pc.tok))
          && (t.cancelled && s.conn == Some(t.pc.c) ==> s.task.None?))
  }

  ghost predicate Tasks(s: State) {
    forall i :: 0 <= i < |s.tasks| ==> TaskOk(s, i)
  }

  predicate Fields(s: State) {
    && (s.task.Some? ==> s.task.value < |s.tasks| && !TaskAt(s, s.task.value).cancelled)
    && (s.task.Some? && s.token.Some? ==> !TaskAt(s, s.task.value).pc.TDone?)
    && (s.token.Some? ==> s.conn.Some? && 1 <= s.lease <= MAX_PROTOCOL_SECONDS)
    && (s.token.None? ==> s.lease == 0 && !s.orphaned)
    && (s.task.Some? && s.conn.Some? ==> s.token.Some?)
    && (s.closed ==> s.conn.None? && s.task.None?)
    && (s.conn.Some? ==> s.conn.value < |s.conns|)
    && (s.orphaned ==> s.task.None?)
    && (s.io.Some? && s.io.value.Task? ==> s.io.value.id < |s.tasks|)
  }

  /** Who has a renew in flight. */
  predicate Renewing(s: State) { s.io.Some? && s.io.value.Task? }

  predicate RenewingOn(s: State, c: nat) {
    Renewing(s) && TaskAt(s, s.io.value.id).pc.TRenew? && TaskAt(s, s.io.value.id).pc.c == c
  }

  predicate ConnOk(s: State, c: nat, hand: Option<nat>) {
    ConnAt(s, c).phase != Bad && (ConnAt(s, c).open ==> s.conn == Some(c) || hand == Some(c))
  }

  ghost predicate Conns(s: State, hand: Option<nat>) {
    forall c :: 0 <= c < |s.conns| ==> ConnOk(s, c, hand)
  }

  /** The connection's phase, when the instance holds a token and no release of it is in flight. */
  predicate HoldPhase(s: State) {
    s.conn.Some? && s.token.Some? ==>
      var k := ConnAt(s, s.conn.value);
      || k.phase == Holding(s.token.value)
      || (k.phase == RenewSent(s.token.value) && (RenewingOn(s, s.conn.value) || !k.open))
  }

  /** What does not depend on where the user operation is. */
  ghost predicate Core(s: State, hand: Option<nat>) { Tasks(s) && Fields(s) && Conns(s, hand) }

  predicate Asked(cmd: Cmd, p: Phase) {
    match cmd case CmdAcquire => p.AcquireSent? case CmdEnqueue => p.EnqueueSent? case CmdWait => p.WaitSent?
  }

  predicate Empty(s: State) { s.conn.None? && s.token.None? && s.task.None? }

  /** The values with which an operation can leave through a close. */
  predicate Leaves(th: Then) {
    th.Leave? ==> th.ret.RetTrue? || th.ret.RetFalse? || th.ret.RetRaised? || th.ret.RetUnit? || th.ret.RetCancelled?
  }

  /** What the user operation relies on at its suspension point. */
  predicate AtPc(s: State) {
    match s.user
    case ResetTask(_, t) => s.task.None? && t < |s.tasks| && TaskAt(s, t).cancelled
    case CloseTask(th, _, t) => s.closed && Leaves(th) && t < |s.tasks| && TaskAt(s, t).cancelled
    case CloseConn(th, _) => s.closed && Leaves(th)
    case Opening(_) => Empty(s) && !s.closed
    case Authing(_, c) => Empty(s) && !s.closed && c < |s.conns| && ConnAt(s, c).phase == AuthSent && !RenewingOn(s, c)
    case AuthClosing(ret, _) => Empty(s) && !s.closed && (ret.RetRaised? || ret.RetCancelled?)
    case Asking(cmd, c) => s.conn == Some(c) && s.token.None? && s.task.None? && !s.closed && Asked(cmd, ConnAt(s, c).phase)
    case RelTask(t) => s.task.None? && t < |s.tasks| && TaskAt(s, t).cancelled
    case Releasing(c, tok) =>
      s.conn == Some(c) && s.token == Some(tok) && s.task.None? && ConnAt(s, c).phase == ReleaseSent
    case _ => true
  }

  /** The relation between the fields and the user's place: who renews a held token, who has queued. */
  predicate Joint(s: State) {
    && (s.io == Some(User) <==> s.user.RelTask? || s.user.Releasing?)
    && (s.token.Some? && s.task.None? && !s.orphaned ==> s.user.ResetTask? || s.user.RelTask? || s.user.Releasing?)
    && (s.conn.Some? && s.token.None? && !s.user.Asking? ==> ConnAt(s, s.conn.value).phase == InQueue)
    && (!s.user.Releasing? ==> HoldPhase(s))
  }

  ghost predicate Inv(s: State) { Core(s, HandOf(s.user)) && Joint(s) && AtPc(s) }

  // ----- steps of the core

  lemma CancelTaskCore(s: State, hand: Option<nat>)
    requires Core(s, hand) && s.task.Some?
    ensures Core(CancelTask(s), hand)
  {
    var u := CancelTask(s);
    forall i | 0 <= i < |u.tasks| ensures TaskOk(u, i) { assert TaskOk(s, i); }
    forall c | 0 <= c < |u.conns| ensures ConnOk(u, c, hand) { assert ConnOk(s, c, hand); }
  }

  lemma CloseNowCore(s: State, c: nat, hand: Option<nat>)
    requires Core(s, hand)
    ensures Core(CloseNow(s, c), hand)
    ensures hand == Some(c) ==> Core(CloseNow(s, c), None)
  {
    var u := CloseNow(s, c);
    forall i | 0 <= i < |u.tasks| ensures TaskOk(u, i) { assert TaskOk(s, i); }
    forall d | 0 <= d < |u.conns| ensures ConnOk(u, d, hand) && (hand == Some(c) ==> ConnOk(u, d, None)) {
      assert ConnOk(s, d, hand);
    }
  }

  /** An event on a connection on which nobody renews. */
  lemma EmitCore(s: State, c: nat, e: Event, hand: Option<nat>)
    requires Core(s, hand) && !RenewingOn(s, c) && Advance(ConnAt(s, c).phase, e) != Bad
    ensures Core(Emit(s, c, e), hand)
  {
    var u := Emit(s, c, e);
    forall i | 0 <= i < |u.tasks| ensures TaskOk(u, i) { assert TaskOk(s, i); }
    forall d | 0 <= d < |u.conns| ensures ConnOk(u, d, hand) { assert ConnOk(s, d, hand); }
  }

  /** Nothing held, and the connection that was held closed. */
  function Detached(s: State): State {
    CloseMaybe(s, s.conn).(closed := true, conn := None, token := None, lease := 0, orphaned := false, task := None)
  }

  lemma DetachCore(s: State)
    requires Core(s, None) && !MustCancel(s)
    ensures Core(Detached(s), None)
  {
    var u := Detached(s);
    forall i | 0 <= i < |u.tasks| ensures TaskOk(u, i) { assert TaskOk(s, i); }
    forall c | 0 <= c < |u.conns| ensures ConnOk(u, c, None) { assert ConnOk(s, c, None); }
  }

  /** Closing restores the invariant from anywhere, provided the I/O lock is not the operation's. */
  lemma CloseInv(s: State, th: Then)
    requires Core(s, None) && s.io != Some(User) && Leaves(th)
    ensures Inv(Close(s, th))
  {
    if s.closed && s.conn.None? && s.task.None? {
      var u := s.(token := None, lease := 0);
      assert u == s;
      AfterCloseInv(s, th);
    } else if MustCancel(s) {
      CancelTaskCore(s, None);
      DetachCore(CancelTask(s));
      var d := Detached(CancelTask(s));
      assert d.conns == CloseMaybe(s, s.conn).conns;
      assert Close(s, th) == d.(user := CloseTask(th, s.conn, s.task.value));
      MoveInv(d, CloseTask(th, s.conn, s.task.value));
    } else {
      DetachCore(s);
      CloseTailInv(Detached(s), th, s.conn);
    }
  }

  /** Core does not look at where the user is. */
  lemma MoveCore(s: State, u: State, hand: Option<nat>)
    requires Core(s, hand) && u == s.(user := u.user, last := u.last)
    ensures Core(u, hand)
  {
    forall i | 0 <= i < |u.tasks| ensures TaskOk(u, i) { assert TaskOk(s, i); }
    forall c | 0 <= c < |u.conns| ensures ConnOk(u, c, hand) { assert ConnOk(s, c, hand); }
  }

  /** A state with nothing held satisfies the invariant at any point that holds nothing either. */
  lemma MoveInv(s: State, user: UserPc)
    requires Core(s, None) && Empty(s) && s.io != Some(User)
    requires !user.Authing? && !user.Asking? && !user.Releasing? && !user.RelTask?
    requires AtPc(s.(user := user))
    ensures Inv(s.(user := user))
  {
    MoveCore(s, s.(user := user), None);
  }

  lemma AfterCloseInv(s: State, th: Then)
    requires Core(s, None) && Empty(s) && s.closed && s.io != Some(User)
    ensures Inv(AfterClose(s, th))
  {
    match th
    case Rearm(op) =>
      var u := s.(closed := false);
      forall i | 0 <= i < |u.tasks| ensures TaskOk(u, i) { assert TaskOk(s, i); }
      forall c | 0 <= c < |u.conns| ensures ConnOk(u, c, None) { assert ConnOk(s, c, None); }
      MoveInv(u, Opening(op));
    case Leave(ret) =>
      MoveCore(s, s.(last := ret), None);
      MoveInv(s.(last := ret), Idle);
  }

  lemma CloseTailInv(s: State, th: Then, c: Option<nat>)
    requires Core(s, None) && Empty(s) && s.closed && s.io != Some(User) && Leaves(th)
    ensures Inv(CloseTail(s, th, c))
  {
    if c.Some? {
      CloseNowCore(s, c.value, None);
      MoveInv(CloseNow(s, c.value), CloseConn(th, c.value));
    } else {
      AfterCloseInv(s, th);
    }
  }

  // ----- user operations

  lemma DropTaskCore(s: State, hand: Option<nat>)
    requires Core(s, hand) && !MustCancel(s)
    ensures Core(s.(task := None), hand)
  {
    var u := s.(task := None);
    forall i | 0 <= i < |u.tasks| ensures TaskOk(u, i) { assert TaskOk(s, i); }
    forall c | 0 <= c < |u.conns| ensures ConnOk(u, c, hand) { assert ConnOk(s, c, hand); }
  }

  lemma ResetInv(s: State, op: Op)
    requires Inv(s) && s.user.Idle?
    ensures Inv(Reset(s, op))
  {
    if MustCancel(s) {
      CancelTaskCore(s, None);
      MoveCore(CancelTask(s), Reset(s, op), None);
    } else {
      DropTaskCore(s, None);
      CloseInv(s.(task := None), Rearm(op));
    }
  }

  /** No renew can be in flight on the connection of an attempt that has no token yet. */
  lemma QuietConn(s: State, c: nat)
    requires Core(s, None) && s.conn == Some(c) && s.token.None?
    ensures !RenewingOn(s, c)
  {
    if Renewing(s) {
      assert TaskOk(s, s.io.value.id);
    }
  }

  lemma AskInv(s: State, cmd: Cmd, c: nat, sent: bool)
    requires Core(s, None) && s.io != Some(User)
    requires s.conn == Some(c) && s.token.None? && s.task.None?
    requires Asked(cmd, Advance(ConnAt(s, c).phase, Sent(CmdFrame(cmd))))
    ensures Inv(Ask(s, cmd, c, sent))
  {
    if sent && ConnAt(s, c).open {
      QuietConn(s, c);
      EmitCore(s, c, Sent(CmdFrame(cmd)), None);
      MoveCore(Emit(s, c, Sent(CmdFrame(cmd))), Ask(s, cmd, c, sent), None);
    } else {
      CloseInv(s, Leave(RetRaised));
    }
  }

  /** A connection in hand becomes the instance's, and the command of the attempt goes out on it. */
  lemma AdoptInv(s: State, op: Op, c: nat, sent: bool)
    requires Core(s, Some(c)) && Empty(s) && !s.closed && s.io != Some(User)
    requires c < |s.conns| && !RenewingOn(s, c) && (ConnAt(s, c).phase.Fresh? || ConnAt(s, c).phase.Ready?)
    ensures Inv(AdoptAndAsk(s, op, c, sent))
  {
    var u := s.(conn := Some(c));
    forall i | 0 <= i < |u.tasks| ensures TaskOk(u, i) { assert TaskOk(s, i); }
    forall d | 0 <= d < |u.conns| ensures ConnOk(u, d, None) { assert ConnOk(s, d, Some(c)); }
    AskInv(u, CmdOf(op), c, sent);
  }

  lemma AuthFailedInv(s: State, c: nat, ret: Ret)
    requires Core(s, Some(c)) && Empty(s) && !s.closed && s.io != Some(User) && (ret.RetRaised? || ret.RetCancelled?)
    ensures Inv(AuthFailed(s, c, ret))
  {
    CloseNowCore(s, c, Some(c));
    MoveInv(CloseNow(s, c), AuthClosing(ret, c));
  }

  lemma OpenedInv(s: State, auth: bool, sent: bool)
    requires Inv(s) && s.user.Opening?
    ensures Inv(OpenedNext(s, s.user.op, auth, sent))
  {
    var c := |s.conns|;
    var u := s.(conns := s.conns + [Conn(true, [], Fresh)]);
    forall i | 0 <= i < |u.tasks| ensures TaskOk(u, i) { assert TaskOk(s, i); }
    forall d | 0 <= d < |u.conns| ensures ConnOk(u, d, Some(c)) { assert d < c ==> ConnOk(s, d, None); }
    if Renewing(s) {
      assert TaskOk(s, s.io.value.id);
    }
    if !auth {
      AdoptInv(u, s.user.op, c, sent);
    } else if sent {
      EmitCore(u, c, Sent(Auth), Some(c));
      MoveCore(Emit(u, c, Sent(Auth)), OpenedNext(s, s.user.op, auth, sent), Some(c));
    } else {
      AuthFailedInv(u, c, RetRaised);
    }
  }

  lemma GrantInv(s: State, cmd: Cmd, c: nat, tok: Token, lease: int)
    requires Core(s, None) && s.io != Some(User) && 1 <= lease <= MAX_PROTOCOL_SECONDS
    requires s.conn == Some(c) && s.token.None? && s.task.None? && ConnAt(s, c).phase == Holding(tok)
    ensures Inv(Grant(s, cmd, tok, lease))
  {
    var u := Grant(s, cmd, tok, lease);
    QuietConn(s, c);
    forall i | 0 <= i < |u.tasks| ensures TaskOk(u, i) { assert i < |s.tasks| ==> TaskOk(s, i); }
    forall d | 0 <= d < |u.conns| ensures ConnOk(u, d, None) { assert ConnOk(s, d, None); }
  }

  lemma AskHeardInv(s: State, r: Reply)
    requires Inv(s) && s.user.Asking? && ConnAt(s, s.user.c).open && ReplyInBounds(r)
    ensures Inv(AskHeard(Emit(s, s.user.c, Got(r)), s.user.cmd, r))
  {
    var cmd, c := s.user.cmd, s.user.c;
    var u := Emit(s, c, Got(r));
    QuietConn(s, c);
    EmitCore(s, c, Got(r), None);
    if r.Granted? {
      GrantInv(u, cmd, c, r.token, r.lease);
    } else if r.Queued? && cmd.CmdEnqueue? {
      MoveCore(u, Finish(u, RetQueued), None);
    } else {
      CloseInv(u, Leave(RetFalse));
      CloseInv(u, Leave(RetRaised));
    }
  }

  lemma HeardInv(s: State, r: Reply, sent: bool)
    requires Inv(s) && InFlight(s.user) && ConnAt(s, FlightConn(s.user)).open && ReplyInBounds(r)
    ensures Inv(HeardNext(s, r, sent))
  {
    match s.user
    case Authing(op, c) =>
      EmitCore(s, c, Got(r), Some(c));
      if r == Done {
        AdoptInv(Emit(s, c, Got(r)), op, c, sent);
      } else {
        AuthFailedInv(Emit(s, c, Got(r)), c, RetRaised);
      }
    case Asking(cmd, c) => AskHeardInv(s, r);
    case Releasing(c, _) =>
      EmitCore(s, c, Got(r), None);
      ReleaseEndInv(Emit(s, c, Got(r)), if r == Done then RetTrue else RetFalse);
  }

  /** Leaving the I/O lock and closing. */
  lemma ReleaseEndInv(s: State, ret: Ret)
    requires Core(s, None) && !Renewing(s) && Leaves(Leave(ret))
    ensures Inv(ReleaseEnd(s, ret))
  {
    var u := s.(io := None);
    forall i | 0 <= i < |u.tasks| ensures TaskOk(u, i) { assert TaskOk(s, i); }
    forall d | 0 <= d < |u.conns| ensures ConnOk(u, d, None) { assert ConnOk(s, d, None); }
    CloseInv(u, Leave(ret));
  }

  lemma SendReleaseInv(s: State, sent: bool)
    requires Core(s, None) && s.io == Some(User) && s.task.None? && HoldPhase(s)
    ensures Inv(SendRelease(s, sent))
  {
    if s.conn.None? || s.token.None? || !sent || !ConnAt(s, s.conn.value).open {
      ReleaseEndInv(s, RetFalse);
    } else {
      EmitCore(s, s.conn.value, Sent(Release(s.token.value)), None);
      MoveCore(Emit(s, s.conn.value, Sent(Release(s.token.value))), SendRelease(s, sent), None);
    }
  }

  lemma ReleaseBodyInv(s: State, sent: bool)
    requires Inv(s) && s.user.RelLock? && s.io.None?
    ensures Inv(ReleaseBody(s, sent))
  {
    var u := s.(io := Some(User));
    forall i | 0 <= i < |u.tasks| ensures TaskOk(u, i) { assert TaskOk(s, i); }
    forall d | 0 <= d < |u.conns| ensures ConnOk(u, d, None) { assert ConnOk(s, d, None); }
    if MustCancel(u) {
      CancelTaskCore(u, None);
      MoveCore(CancelTask(u), ReleaseBody(s, sent), None);
    } else {
      DropTaskCore(u, None);
      SendReleaseInv(u.(task := None), sent);
    }
  }

  lemma CallInv(s: State, api: Api, sent: bool)
    requires Inv(s) && s.user.Idle?
    ensures Inv(CallNext(s, api, sent))
  {
    match api
    case ApiAcquire => ResetInv(s, OpAcquire);
    case ApiEnqueue => ResetInv(s, OpEnqueue);
    case ApiWait =>
      if s.conn.Some? && s.token.None? {
        AskInv(s, CmdWait, s.conn.value, sent);
      } else {
        MoveCore(s, CallNext(s, api, sent), None);
      }
    case ApiRelease => MoveCore(s, s.(user := RelLock), None);
    case ApiClose => CloseInv(s, Leave(RetUnit));
  }

  lemma ResumedInv(s: State, sent: bool)
    requires Inv(s) && CanResume(s)
    ensures Inv(ResumedNext(s, sent))
  {
    match s.user
    case ResetTask(op, _) => CloseInv(s, Rearm(op));
    case CloseTask(th, c, _) => CloseTailInv(s, th, c);
    case CloseConn(th, _) => AfterCloseInv(s, th);
    case AuthClosing(ret, _) => MoveCore(s, Finish(s, ret), None);
    case RelLock => ReleaseBodyInv(s, sent);
    case RelTask(_) => SendReleaseInv(s, sent);
  }

  lemma FailedInv(s: State)
    requires Inv(s) && (s.user.Opening? || InFlight(s.user))
    ensures Inv(FailedNext(s))
  {
    match s.user
    case Opening(_) => MoveCore(s, Finish(s, RetRaised), None);
    case Authing(_, c) => AuthFailedInv(s, c, RetRaised);
    case Asking(_, c) =>
      CloseNowCore(s, c, None);
      CloseInv(CloseNow(s, c), Leave(RetRaised));
    case Releasing(c, _) =>
      CloseNowCore(s, c, None);
      ReleaseEndInv(CloseNow(s, c), RetFalse);
  }

  /** Cancellation where nothing is left to clean up. */
  lemma CancelledPlain(s: State)
    requires Inv(s) && !s.user.Idle? && !InFlight(s.user)
    requires !s.user.ResetTask? && !s.user.RelLock? && !s.user.RelTask?
    ensures Inv(CancelledNext(s))
  {
    MoveCore(s, Finish(s, RetCancelled), None);
  }

  /** A cancelled reset leaves a held token without a renew task. */
  lemma CancelledReset(s: State)
    requires Inv(s) && s.user.ResetTask?
    ensures Inv(CancelledNext(s))
  {
    var u := s.(orphaned := s.token.Some?);
    forall i | 0 <= i < |u.tasks| ensures TaskOk(u, i) { assert TaskOk(s, i); }
    forall c | 0 <= c < |u.conns| ensures ConnOk(u, c, None) { assert ConnOk(s, c, None); }
    MoveCore(u, Finish(u, RetCancelled), None);
  }

  lemma CancelledInv(s: State)
    requires Inv(s) && !s.user.Idle?
    ensures Inv(CancelledNext(s))
  {
    match s.user
    case ResetTask(_, _) => CancelledReset(s);
    case Authing(_, c) => AuthFailedInv(s, c, RetCancelled);
    case Asking(_, c) =>
      CloseNowCore(s, c, None);
      CloseInv(CloseNow(s, c), Leave(RetCancelled));
    case RelLock => CloseInv(s, Leave(RetCancelled));
    case RelTask(_) => ReleaseEndInv(s, RetCancelled);
    case Releasing(c, _) =>
      CloseNowCore(s, c, None);
      ReleaseEndInv(CloseNow(s, c), RetCancelled);
    case CloseTask(_, _, _) => CancelledPlain(s);
    case CloseConn(_, _) => CancelledPlain(s);
    case Opening(_) => CancelledPlain(s);
    case AuthClosing(_, _) => CancelledPlain(s);
  }

  lemma UserKeeps(s: State, l: Label)
    requires Inv(s) && UserEnabled(s, l)
    ensures Inv(UserNext(s, l))
  {
    match l
    case Call(api, sent) => CallInv(s, api, sent);
    case Resumed(sent) => ResumedInv(s, sent);
    case Opened(auth, sent) => OpenedInv(s, auth, sent);
    case Heard(r, sent) => HeardInv(s, r, sent);
    case Failed => FailedInv(s);
    case Cancelled => CancelledInv(s);
  }

  // ----- the renew tasks

  /** Going to sleep or waiting for the I/O lock. */
  lemma RunKeeps(s: State, i: nat, pc: TaskPc)
    requires Inv(s) && i < |s.tasks| && (pc.TSleep? || pc.TLock?)
    requires !TaskAt(s, i).pc.TDone? && !TaskAt(s, i).pc.TRenew?
    ensures Inv(SetPc(s, i, pc))
  {
    var u := SetPc(s, i, pc);
    forall j | 0 <= j < |u.tasks| ensures TaskOk(u, j) { assert TaskOk(s, j); }
    forall c | 0 <= c < |u.conns| ensures ConnOk(u, c, HandOf(s.user)) { assert ConnOk(s, c, HandOf(s.user)); }
    assert forall c :: RenewingOn(u, c) ==> RenewingOn(s, c) by {
      if Renewing(s) { assert TaskOk(s, s.io.value.id); }
    }
    if Renewing(s) { assert TaskOk(s, s.io.value.id); }
  }

  /** A live task meets the user operation only at rest or before it has the I/O lock. */
  lemma LivelyUser(s: State, i: nat)
    requires Inv(s) && i < |s.tasks| && Lively(TaskAt(s, i))
    ensures s.task == Some(i) && s.token.Some? && s.conn.Some? && !s.closed
    ensures s.user.Idle? || s.user.RelLock?
  {
    assert TaskOk(s, i);
  }

  /** A failed renew: the hold is given up and the task ends. k is what became of the connection before. */
  lemma LoseInv(s: State, i: nat, c: nat, k: Conn)
    requires Inv(s) && i < |s.tasks| && Lively(TaskAt(s, i)) && (s.io.None? || s.io == Some(Task(i)))
    requires s.conn == Some(c) && k.phase != Bad
    ensures Inv(SetPc(RenewFailed(s.(io := None, conns := s.conns[c := k]), c), i, TDone))
  {
    LivelyUser(s, i);
    var u := SetPc(RenewFailed(s.(io := None, conns := s.conns[c := k]), c), i, TDone);
    forall j | 0 <= j < |u.tasks| ensures TaskOk(u, j) { assert TaskOk(s, j); }
    forall d | 0 <= d < |u.conns| ensures ConnOk(u, d, None) { assert ConnOk(s, d, None); }
  }

  /** The renew goes out under the I/O lock. */
  lemma RenewSentInv(s: State, i: nat)
    requires Inv(s) && i < |s.tasks| && Lively(TaskAt(s, i)) && s.io.None?
    requires s.conn.Some? && s.token.Some? && ConnAt(s, s.conn.value).open
    ensures Inv(SetPc(Emit(s, s.conn.value, Sent(Renew(s.token.value))).(io := Some(Task(i))), i, TRenew(s.conn.value, s.token.value)))
  {
    LivelyUser(s, i);
    var u := SetPc(Emit(s, s.conn.value, Sent(Renew(s.token.value))).(io := Some(Task(i))), i, TRenew(s.conn.value, s.token.value));
    forall j | 0 <= j < |u.tasks| ensures TaskOk(u, j) { assert TaskOk(s, j); }
    forall d | 0 <= d < |u.conns| ensures ConnOk(u, d, None) { assert ConnOk(s, d, None); }
  }

  lemma TickInv(s: State, i: nat, sent: bool)
    requires Inv(s) && i < |s.tasks| && Lively(TaskAt(s, i)) && s.io.None?
    ensures Inv(TickBody(s, i, sent))
  {
    LivelyUser(s, i);
    var c := s.conn.value;
    if sent && ConnAt(s, c).open {
      RenewSentInv(s, i);
    } else {
      assert ConnOk(s, c, None);
      LoseInv(s, i, c, ConnAt(s, c));
      assert s.(io := None, conns := s.conns[c := ConnAt(s, c)]) == s;
    }
  }

  /** The renew was answered with the seconds that remain. */
  lemma RenewedInv(s: State, i: nat, c: nat, r: Reply)
    requires Inv(s) && i < |s.tasks| && Lively(TaskAt(s, i)) && TaskAt(s, i).pc.TRenew? && TaskAt(s, i).pc.c == c
    requires ConnAt(s, c).open && r.Renewed? && ReplyInBounds(r)
    ensures Inv(RenewHeard(s, i, c, r))
  {
    LivelyUser(s, i);
    assert TaskOk(s, i);
    var u := RenewHeard(s, i, c, r);
    forall j | 0 <= j < |u.tasks| ensures TaskOk(u, j) { assert TaskOk(s, j); }
    forall d | 0 <= d < |u.conns| ensures ConnOk(u, d, None) { assert ConnOk(s, d, None); }
  }

  lemma RenewHeardInv(s: State, i: nat, c: nat, r: Reply)
    requires Inv(s) && i < |s.tasks| && Lively(TaskAt(s, i)) && TaskAt(s, i).pc.TRenew? && TaskAt(s, i).pc.c == c
    requires ConnAt(s, c).open && ReplyInBounds(r)
    ensures Inv(RenewHeard(s, i, c, r))
  {
    if r.Renewed? {
      RenewedInv(s, i, c, r);
    } else {
      assert TaskOk(s, i);
      LoseInv(s, i, c, Emit(s, c, Got(r)).conns[c]);
      assert Emit(s, c, Got(r)).(io := None) == s.(io := None, conns := s.conns[c := Emit(s, c, Got(r)).conns[c]]);
    }
  }

  lemma TaskFailedInv(s: State, i: nat, c: nat)
    requires Inv(s) && i < |s.tasks| && Lively(TaskAt(s, i)) && TaskAt(s, i).pc.TRenew? && TaskAt(s, i).pc.c == c
    ensures Inv(SetPc(RenewFailed(CloseNow(s, c).(io := None), c), i, TDone))
  {
    assert TaskOk(s, i);
    assert ConnOk(s, c, HandOf(s.user));
    LoseInv(s, i, c, CloseNow(s, c).conns[c]);
    assert CloseNow(s, c).(io := None) == s.(io := None, conns := s.conns[c := CloseNow(s, c).conns[c]]);
  }

  /** A task cancelled in its sleep or while it waits for the lock just ends. */
  lemma IdleCancelInv(s: State, i: nat)
    requires Inv(s) && i < |s.tasks| && TaskAt(s, i).cancelled && !TaskAt(s, i).pc.TDone? && !TaskAt(s, i).pc.TRenew?
    ensures Inv(SetPc(s, i, TDone))
  {
    var u := SetPc(s, i, TDone);
    forall j | 0 <= j < |u.tasks| ensures TaskOk(u, j) { assert TaskOk(s, j); }
    forall d | 0 <= d < |u.conns| ensures ConnOk(u, d, HandOf(s.user)) { assert ConnOk(s, d, HandOf(s.user)); }
    assert TaskOk(s, i);
  }

  /** A task cancelled in its renew closes the connection of the renew. */
  lemma RenewCancelInv(s: State, i: nat, c: nat)
    requires Inv(s) && i < |s.tasks| && TaskAt(s, i).cancelled && TaskAt(s, i).pc.TRenew? && TaskAt(s, i).pc.c == c
    ensures Inv(SetPc(CloseNow(s, c).(io := None), i, TDone))
  {
    var u := SetPc(CloseNow(s, c).(io := None), i, TDone);
    assert TaskOk(s, i);
    forall j | 0 <= j < |u.tasks| ensures TaskOk(u, j) { assert TaskOk(s, j); }
    forall d | 0 <= d < |u.conns| ensures ConnOk(u, d, HandOf(s.user)) { assert ConnOk(s, d, HandOf(s.user)); }
  }

  /** A cancelled task writes no field: it only closes the connection of the renew it had in flight. */
  lemma TaskCancelledInv(s: State, i: nat)
    requires Inv(s) && i < |s.tasks| && TaskAt(s, i).cancelled && !TaskAt(s, i).pc.TDone?
    ensures Inv(TaskCancelled(s, i))
  {
    if TaskAt(s, i).pc.TRenew? {
      RenewCancelInv(s, i, TaskAt(s, i).pc.c);
    } else {
      IdleCancelInv(s, i);
    }
  }

  lemma TaskKeeps(s: State, i: nat, ch: TaskChoice)
    requires Inv(s) && i < |s.tasks| && TaskEnabled(s, i, ch)
    ensures Inv(TaskNext(s, i, ch))
  {
    match ch
    case Begun => RunKeeps(s, i, TSleep);
    case Elapsed => RunKeeps(s, i, TLock);
    case Locked(sent) => TickInv(s, i, sent);
    case TaskHeard(r) => RenewHeardInv(s, i, TaskAt(s, i).pc.c, r);
    case TaskFailed => TaskFailedInv(s, i, TaskAt(s, i).pc.c);
    case Cancel => TaskCancelledInv(s, i);
  }

  // ----- the theorem

  lemma InitialInv()
    ensures Inv(INITIAL)
  {
  }

  lemma NextKeeps(s: State, l: Label)
    requires Inv(s) && Enabled(s, l)
    ensures Inv(Next(s, l))
  {
    if l.TaskStep? {
      TaskKeeps(s, l.i, l.ch);
    } else {
      UserKeeps(s, l);
    }
  }
}
