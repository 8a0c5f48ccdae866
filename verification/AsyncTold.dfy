/**
 The lease field of a held asynchronous instance is what the server last said, in every state of
 every run, whatever is cancelled.
 */
module AsyncTold {
  import opened Basics
  import opened Session
  import opened Lifecycle
  import opened AsyncMachine
  import opened Runs
  import opened AsyncInvariant
  import opened AsyncTheorems

  predicate ToldOk(s: State) {
    s.conn.Some? && s.token.Some? ==> s.lease == Told(ConnAt(s, s.conn.value).trace)
  }

  lemma SameTold(s: State, t: State)
    requires ToldOk(s) && t.conn == s.conn && t.token == s.token && t.lease == s.lease
    requires s.conn.Some? ==> ConnAt(t, s.conn.value).trace == ConnAt(s, s.conn.value).trace
    ensures ToldOk(t)
  {
  }

  /** A close gives the token up. */
  lemma CloseTold(s: State, th: Then)
    requires s.closed ==> s.conn.None?
    ensures ToldOk(Close(s, th)) && Close(s, th).token.None?
  {
  }

  lemma AskTold(s: State, cmd: Cmd, c: nat, sent: bool)
    requires s.token.None? && (s.closed ==> s.conn.None?)
    ensures ToldOk(Ask(s, cmd, c, sent))
  {
    CloseTold(s, Leave(RetRaised));
  }

  lemma ResetTold(s: State, op: Op)
    requires ToldOk(s) && (s.closed ==> s.conn.None?)
    ensures ToldOk(Reset(s, op))
  {
    if MustCancel(s) { SameTold(s, Reset(s, op)); } else { CloseTold(s.(task := None), Rearm(op)); }
  }

  lemma CallTold(s: State, api: Api, sent: bool)
    requires Inv(s) && ToldOk(s)
    ensures ToldOk(CallNext(s, api, sent))
  {
    match api
    case ApiAcquire => ResetTold(s, OpAcquire);
    case ApiEnqueue => ResetTold(s, OpEnqueue);
    case ApiWait =>
      if s.token.None? && s.conn.Some? { AskTold(s, CmdWait, s.conn.value, sent); }
    case ApiRelease =>
    case ApiClose => CloseTold(s, Leave(RetUnit));
  }

  lemma SendReleaseTold(s: State, sent: bool)
    requires ToldOk(s) && (s.closed ==> s.conn.None?)
    ensures ToldOk(SendRelease(s, sent))
  {
    CloseTold(s.(io := None), Leave(RetFalse));
    if s.conn.Some? && s.token.Some? { ToldAppend(ConnAt(s, s.conn.value).trace, Sent(Release(s.token.value))); }
  }

  lemma ResumedTold(s: State, sent: bool)
    requires Inv(s) && ToldOk(s) && CanResume(s)
    ensures ToldOk(ResumedNext(s, sent))
  {
    match s.user
    case ResetTask(op, _) => CloseTold(s, Rearm(op));
    case RelLock => SendReleaseTold(s.(io := Some(User), task := None), sent);
    case RelTask(_) => SendReleaseTold(s, sent);
    case _ =>
  }

  lemma GrantTold(s: State, cmd: Cmd, c: nat, t: Token, n: int)
    requires s.conn == Some(c) && Told(ConnAt(s, c).trace) == n
    ensures ToldOk(Grant(s, cmd, t, n))
  {
  }

  lemma EmitTold(s: State, c: nat, e: Event)
    requires c < |s.conns|
    ensures Told(ConnAt(Emit(s, c, e), c).trace) == ToldAfter(Told(s.conns[c].trace), e)
  {
    ToldAppend(s.conns[c].trace, e);
  }

  lemma GrantHeardTold(s: State, t: Token, n: int)
    requires s.user.Asking? && s.conn == Some(s.user.c) && s.user.c < |s.conns|
    ensures ToldOk(Grant(Emit(s, s.user.c, Got(Granted(t, n))), s.user.cmd, t, n))
  {
    var u := Emit(s, s.user.c, Got(Granted(t, n)));
    EmitTold(s, s.user.c, Got(Granted(t, n)));
    assert Told(ConnAt(u, s.user.c).trace) == n && u.conn == s.conn;
    GrantTold(u, s.user.cmd, s.user.c, t, n);
  }

  lemma AskHeardTold(s: State, r: Reply)
    requires Inv(s) && s.user.Asking?
    ensures ToldOk(AskHeard(Emit(s, s.user.c, Got(r)), s.user.cmd, r))
  {
    var u := Emit(s, s.user.c, Got(r));
    if r.Granted? {
      GrantHeardTold(s, r.token, r.lease);
    } else if r.TimedOut? && !s.user.cmd.CmdEnqueue? {
      CloseTold(u, Leave(RetFalse));
    } else if !(r.Queued? && s.user.cmd.CmdEnqueue?) {
      CloseTold(u, Leave(RetRaised));
    }
  }

  lemma HeardTold(s: State, r: Reply, sent: bool)
    requires Inv(s) && InFlight(s.user)
    ensures ToldOk(HeardNext(s, r, sent))
  {
    match s.user
    case Authing(op, c) => AskTold(Emit(s, c, Got(r)).(conn := Some(c)), CmdOf(op), c, sent);
    case Asking(_, _) => AskHeardTold(s, r);
    case Releasing(c, _) => CloseTold(Emit(s, c, Got(r)).(io := None), Leave(if r == Done then RetTrue else RetFalse));
  }

  lemma BrokenTold(s: State)
    requires Inv(s) && ToldOk(s) && !s.user.Idle?
    ensures ToldOk(CancelledNext(s)) && (s.user.Opening? || InFlight(s.user) ==> ToldOk(FailedNext(s)))
  {
    match s.user
    case Asking(_, c) =>
      CloseTold(CloseNow(s, c), Leave(RetCancelled));
      CloseTold(CloseNow(s, c), Leave(RetRaised));
    case RelLock => CloseTold(s, Leave(RetCancelled));
    case RelTask(_) => CloseTold(s.(io := None), Leave(RetCancelled));
    case Releasing(c, _) =>
      CloseTold(CloseNow(s, c).(io := None), Leave(RetCancelled));
      CloseTold(CloseNow(s, c).(io := None), Leave(RetFalse));
    case _ =>
  }

  lemma OpenedTold(s: State, auth: bool, sent: bool)
    requires Inv(s) && s.user.Opening?
    ensures ToldOk(OpenedNext(s, s.user.op, auth, sent))
  {
    var c := |s.conns|;
    AskTold(s.(conns := s.conns + [Conn(true, [], Fresh)], conn := Some(c)), CmdOf(s.user.op), c, sent);
  }

  // ----- tasks

  lemma TickTold(s: State, i: nat, sent: bool)
    requires Inv(s) && ToldOk(s)
    ensures ToldOk(TickBody(s, i, sent))
  {
    if s.conn.Some? && s.token.Some? { ToldAppend(ConnAt(s, s.conn.value).trace, Sent(Renew(s.token.value))); }
  }

  /** A report is stored as it was told. */
  lemma RenewHeardTold(s: State, i: nat, c: nat, r: Reply)
    requires Inv(s) && ToldOk(s) && s.conn == Some(c) && !s.closed
    ensures ToldOk(RenewHeard(s, i, c, r))
  {
    ToldAppend(ConnAt(s, c).trace, Got(r));
  }

  lemma TaskTold(s: State, i: nat, ch: TaskChoice)
    requires Inv(s) && ToldOk(s) && i < |s.tasks| && TaskEnabled(s, i, ch)
    ensures ToldOk(TaskNext(s, i, ch))
  {
    assert TaskOk(s, i);
    match ch
    case Locked(sent) => TickTold(s, i, sent);
    case TaskHeard(r) => RenewHeardTold(s, i, TaskAt(s, i).pc.c, r);
    case _ =>
  }

  ghost predicate ToldInv(s: State) { Inv(s) && ToldOk(s) }

  lemma ToldKept(s: State, l: Label)
    requires ToldInv(s) && Enabled(s, l)
    ensures ToldInv(Next(s, l))
  {
    NextKeeps(s, l);
    match l
    case Call(api, sent) => CallTold(s, api, sent);
    case Resumed(sent) => ResumedTold(s, sent);
    case Opened(auth, sent) => OpenedTold(s, auth, sent);
    case Heard(r, sent) => HeardTold(s, r, sent);
    case Failed => BrokenTold(s);
    case Cancelled => BrokenTold(s);
    case TaskStep(i, ch) => TaskTold(s, i, ch);
  }

  /** Whenever a token is held, its lease is what the server last said on the connection held. */
  lemma LeaseIsTold(s: State)
    requires Reachable(s) && s.token.Some?
    ensures s.conn.Some? && s.conn.value < |s.conns| && s.lease == Told(s.conns[s.conn.value].trace)
  {
    var labels :| Possible(INITIAL, labels) && After(INITIAL, labels) == s;
    InitialInv();
    forall t, l | ToldInv(t) && Enabled(t, l) ensures ToldInv(Step(t, l)) { ToldKept(t, l); }
    Invariant(Enabled, Step, t => ToldInv(t), INITIAL, labels);
  }
}
