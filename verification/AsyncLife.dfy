/** The asynchronous client, cancellations included, runs the abstract machine of Lifecycle. */
module AsyncLife {
  import opened Basics
  import opened Session
  import opened Lifecycle
  import opened AsyncMachine
  import opened AsyncInvariant
  import opened AsyncTheorems

  /** The abstract state of an instance. */
  function LifeOf(s: State): Life {
    if s.conn.None? then AtRest
    else
      var c := s.conn.value;
      if s.token.Some? then Owner(c, s.token.value)
      else if ConnAt(s, c).phase.InQueue? || ConnAt(s, c).phase.WaitSent? then InLine(c)
      else AtRest
  }

  /**
   A call that gives the hold or the place in line up before its first suspension: a new attempt, a close,
   or a wait that cannot be sent.
   */
  predicate GivesUp(s: State, l: Label) {
    l.Call? && (l.api.ApiAcquire? || l.api.ApiEnqueue? || l.api.ApiClose? || (l.api.ApiWait? && (!l.sent || !Open(s))))
  }

  predicate Open(s: State) { s.conn.Some? && ConnAt(s, s.conn.value).open }

  /** The reset goes on to its close, or the release does, having nothing to release or failing to send it. */
  predicate GoesOnToClose(s: State, l: Label) {
    l.Resumed? && (s.user.ResetTask? || ((s.user.RelLock? || s.user.RelTask?) && (s.token.None? || !l.sent || !Open(s))))
  }

  /** The wait in line, or the release, is over: answered, failed or cancelled. */
  predicate IsOver(s: State, l: Label) {
    || ((l.Heard? || l.Failed? || l.Cancelled?) && (s.user.Releasing? || (s.user.Asking? && s.user.cmd.CmdWait?)))
    || (l.Cancelled? && (s.user.RelLock? || s.user.RelTask?))
  }

  /** A renew of the current task could not be sent, failed, or was answered with something else. */
  predicate RenewLost(s: State, l: Label) {
    l.TaskStep? && s.task == Some(l.i)
    && (l.ch.TaskFailed? || (l.ch.TaskHeard? && !l.ch.r.Renewed?) || (l.ch.Locked? && (!l.ch.sent || !Open(s))))
  }

  /**
   Who may cause a change: the reply to the instance's own command on its own connection, the
   user giving the connection up at one of the named places, or the current renew task after a
   failed renew.
   */
  predicate Causes(s: State, l: Label, cause: Cause) {
    match cause
    case NoCause => true
    case Granting => l.Heard? && l.r.Granted? && s.user.Asking? && s.conn == Some(s.user.c)
    case Queueing => l.Heard? && l.r.Queued? && s.user.Asking? && s.user.cmd == CmdEnqueue && s.conn == Some(s.user.c)
    case Ending => GivesUp(s, l) || GoesOnToClose(s, l) || IsOver(s, l) || RenewLost(s, l)
  }

  predicate Refines(s: State, l: Label, t: State) {
    LifeStep(LifeOf(s), LifeOf(t), CauseOf(LifeOf(s), LifeOf(t))) && Causes(s, l, CauseOf(LifeOf(s), LifeOf(t)))
  }

  lemma CloseAtRest(s: State, th: Then)
    requires s.closed ==> s.conn.None?
    ensures LifeOf(Close(s, th)) == AtRest
  {
  }

  lemma AskLife(s: State, cmd: Cmd, c: nat, sent: bool)
    requires !s.closed && s.conn == Some(c) && s.token.None? && c < |s.conns|
    requires Asked(cmd, Advance(ConnAt(s, c).phase, Sent(CmdFrame(cmd))))
    ensures LifeOf(Ask(s, cmd, c, sent)) == AtRest || (cmd.CmdWait? && LifeOf(Ask(s, cmd, c, sent)) == InLine(c))
  {
    CloseAtRest(s, Leave(RetRaised));
  }

  lemma CallRefines(s: State, api: Api, sent: bool)
    requires Inv(s) && s.user.Idle?
    ensures Refines(s, Call(api, sent), CallNext(s, api, sent))
  {
    match api
    case ApiAcquire => CloseAtRest(s.(task := None), Rearm(OpAcquire));
    case ApiEnqueue => CloseAtRest(s.(task := None), Rearm(OpEnqueue));
    case ApiWait =>
      if s.token.None? && s.conn.Some? { AskLife(s, CmdWait, s.conn.value, sent); }
    case ApiRelease =>
    case ApiClose => CloseAtRest(s, Leave(RetUnit));
  }

  lemma SendReleaseLife(s: State, sent: bool)
    requires s.closed ==> s.conn.None?
    ensures LifeOf(SendRelease(s, sent)) == LifeOf(s)
      || (LifeOf(SendRelease(s, sent)) == AtRest && (s.token.None? || !sent || !Open(s)))
  {
    CloseAtRest(s.(io := None), Leave(RetFalse));
  }

  lemma ResumedRefines(s: State, sent: bool)
    requires Inv(s) && CanResume(s)
    ensures Refines(s, Resumed(sent), ResumedNext(s, sent))
  {
    match s.user
    case ResetTask(op, _) => CloseAtRest(s, Rearm(op));
    case RelLock =>
      var u := s.(io := Some(User));
      if !MustCancel(u) { SendReleaseLife(u.(task := None), sent); }
    case RelTask(_) => SendReleaseLife(s, sent);
    case CloseTask(_, _, _) =>
    case CloseConn(_, _) =>
    case AuthClosing(_, _) =>
  }

  lemma OpenedRefines(s: State, auth: bool, sent: bool)
    requires Inv(s) && s.user.Opening?
    ensures Refines(s, Opened(auth, sent), OpenedNext(s, s.user.op, auth, sent))
  {
    var c := |s.conns|;
    var u := s.(conns := s.conns + [Conn(true, [], Fresh)]);
    AskLife(u.(conn := Some(c)), CmdOf(s.user.op), c, sent);
  }

  lemma AskingRefines(s: State, r: Reply, sent: bool)
    requires Inv(s) && s.user.Asking? && ConnAt(s, s.user.c).open
    ensures Refines(s, Heard(r, sent), HeardNext(s, r, sent))
  {
    var u := Emit(s, s.user.c, Got(r));
    CloseAtRest(u, Leave(RetFalse));
    CloseAtRest(u, Leave(RetRaised));
  }

  lemma HeardRefines(s: State, r: Reply, sent: bool)
    requires Inv(s) && InFlight(s.user) && ConnAt(s, FlightConn(s.user)).open
    ensures Refines(s, Heard(r, sent), HeardNext(s, r, sent))
  {
    match s.user
    case Authing(op, c) =>
      if r == Done { AskLife(Emit(s, c, Got(r)).(conn := Some(c)), CmdOf(op), c, sent); }
    case Asking(_, _) => AskingRefines(s, r, sent);
    case Releasing(c, _) => CloseAtRest(Emit(s, c, Got(r)).(io := None), Leave(if r == Done then RetTrue else RetFalse));
  }

  lemma FailedRefines(s: State)
    requires Inv(s) && (s.user.Opening? || InFlight(s.user))
    ensures Refines(s, Failed, FailedNext(s))
  {
    match s.user
    case Opening(_) =>
    case Authing(_, c) =>
    case Asking(_, c) => CloseAtRest(CloseNow(s, c), Leave(RetRaised));
    case Releasing(c, _) => CloseAtRest(CloseNow(s, c).(io := None), Leave(RetFalse));
  }

  lemma CancelledRefines(s: State)
    requires Inv(s) && !s.user.Idle?
    ensures Refines(s, Cancelled, CancelledNext(s))
  {
    match s.user
    case Asking(_, c) => CloseAtRest(CloseNow(s, c), Leave(RetCancelled));
    case RelLock => CloseAtRest(s, Leave(RetCancelled));
    case RelTask(_) => CloseAtRest(s.(io := None), Leave(RetCancelled));
    case Releasing(c, _) => CloseAtRest(CloseNow(s, c).(io := None), Leave(RetCancelled));
    case _ =>
  }

  lemma TaskRefines(s: State, i: nat, ch: TaskChoice)
    requires Inv(s) && i < |s.tasks| && TaskEnabled(s, i, ch)
    ensures Refines(s, TaskStep(i, ch), TaskNext(s, i, ch))
  {
    assert TaskOk(s, i);
    if !ch.Cancel? { LivelyUser(s, i); }
  }

  /** Every step of the implementation is a step of the abstract machine with the same cause. */
  lemma StepRefines(s: State, l: Label)
    requires Reachable(s) && Enabled(s, l)
    ensures Refines(s, l, Next(s, l))
  {
    ReachableInv(s);
    match l
    case Call(api, sent) => CallRefines(s, api, sent);
    case Resumed(sent) => ResumedRefines(s, sent);
    case Opened(auth, sent) => OpenedRefines(s, auth, sent);
    case Heard(r, sent) => HeardRefines(s, r, sent);
    case Failed => FailedRefines(s);
    case Cancelled => CancelledRefines(s);
    case TaskStep(i, ch) => TaskRefines(s, i, ch);
  }

  /** What the value an operation returns says about the abstract state in which it returns. */
  predicate Returned(before: UserPc, t: State) {
    match t.last
    case RetAcquired => LifeOf(t).Owner? && KeptAlive(t)
    case RetQueued => LifeOf(t).InLine?
    case RetTrue =>
      if before.Asking? then LifeOf(t).Owner? && KeptAlive(t)
      else if before.Idle? then LifeOf(t).Owner?
      else LifeOf(t) == AtRest
    case RetCancelled => LifeOf(t) == AtRest || before.ResetTask?
    case NoRet => false
    case _ => LifeOf(t) == AtRest
  }

  /** The values that closing ends with. */
  predicate Ends(ret: Ret) { ret.RetFalse? || ret.RetRaised? || ret.RetUnit? || ret.RetCancelled? }

  lemma CloseReturns(s: State, before: UserPc, ret: Ret)
    requires s.closed ==> s.conn.None?
    requires Ends(ret) || (ret.RetTrue? && !before.Asking? && !before.Idle?)
    requires Close(s, Leave(ret)).user.Idle?
    ensures Returned(before, Close(s, Leave(ret)))
  {
    CloseAtRest(s, Leave(ret));
  }

  lemma CallReturns(s: State, api: Api, sent: bool)
    requires Inv(s) && s.user.Idle? && CallNext(s, api, sent).user.Idle?
    ensures Returned(s.user, CallNext(s, api, sent))
  {
    match api
    case ApiWait =>
      if s.token.None? && s.conn.Some? { CloseReturns(s, s.user, RetRaised); }
    case ApiClose => CloseReturns(s, s.user, RetUnit);
    case ApiAcquire =>
    case ApiEnqueue =>
    case ApiRelease =>
  }

  lemma SendReleaseReturns(s: State, before: UserPc, sent: bool)
    requires s.closed ==> s.conn.None?
    requires SendRelease(s, sent).user.Idle?
    ensures Returned(before, SendRelease(s, sent))
  {
    CloseReturns(s.(io := None), before, RetFalse);
  }

  lemma ResumedReturns(s: State, sent: bool)
    requires Inv(s) && CanResume(s) && ResumedNext(s, sent).user.Idle?
    ensures Returned(s.user, ResumedNext(s, sent))
  {
    match s.user
    case ResetTask(_, _) =>
    case RelLock =>
      var u := s.(io := Some(User));
      if !MustCancel(u) { SendReleaseReturns(u.(task := None), s.user, sent); }
    case RelTask(_) => SendReleaseReturns(s, s.user, sent);
    case CloseTask(_, _, _) =>
    case CloseConn(_, _) =>
    case AuthClosing(_, _) =>
  }

  lemma AskHeardReturns(s: State, r: Reply)
    requires Inv(s) && s.user.Asking? && ConnAt(s, s.user.c).open
    requires AskHeard(Emit(s, s.user.c, Got(r)), s.user.cmd, r).user.Idle?
    ensures Returned(s.user, AskHeard(Emit(s, s.user.c, Got(r)), s.user.cmd, r))
  {
    var u := Emit(s, s.user.c, Got(r));
    if r.Granted? || (r.Queued? && s.user.cmd.CmdEnqueue?) {
    } else if r.TimedOut? && !s.user.cmd.CmdEnqueue? {
      CloseReturns(u, s.user, RetFalse);
    } else {
      CloseReturns(u, s.user, RetRaised);
    }
  }

  lemma HeardReturns(s: State, r: Reply, sent: bool)
    requires Inv(s) && InFlight(s.user) && ConnAt(s, FlightConn(s.user)).open && HeardNext(s, r, sent).user.Idle?
    ensures Returned(s.user, HeardNext(s, r, sent))
  {
    match s.user
    case Authing(_, c) =>
      if r == Done { CloseReturns(Emit(s, c, Got(r)).(conn := Some(c)), s.user, RetRaised); }
    case Asking(_, _) => AskHeardReturns(s, r);
    case Releasing(c, _) => CloseReturns(Emit(s, c, Got(r)).(io := None), s.user, if r == Done then RetTrue else RetFalse);
  }

  lemma BrokenReturns(s: State)
    requires Inv(s) && !s.user.Idle?
    ensures CancelledNext(s).user.Idle? ==> Returned(s.user, CancelledNext(s))
    ensures (s.user.Opening? || InFlight(s.user)) && FailedNext(s).user.Idle? ==> Returned(s.user, FailedNext(s))
  {
    match s.user
    case Asking(_, c) =>
      if Close(CloseNow(s, c), Leave(RetCancelled)).user.Idle? { CloseReturns(CloseNow(s, c), s.user, RetCancelled); }
      if Close(CloseNow(s, c), Leave(RetRaised)).user.Idle? { CloseReturns(CloseNow(s, c), s.user, RetRaised); }
    case RelLock =>
      if Close(s, Leave(RetCancelled)).user.Idle? { CloseReturns(s, s.user, RetCancelled); }
    case RelTask(_) =>
      if Close(s.(io := None), Leave(RetCancelled)).user.Idle? { CloseReturns(s.(io := None), s.user, RetCancelled); }
    case Releasing(c, _) =>
      var u := CloseNow(s, c).(io := None);
      if Close(u, Leave(RetCancelled)).user.Idle? { CloseReturns(u, s.user, RetCancelled); }
      if Close(u, Leave(RetFalse)).user.Idle? { CloseReturns(u, s.user, RetFalse); }
    case _ =>
  }

  /**
   "acquired" and a true acquire or wait return only as owner with a live renew task, "queued"
   only in line, and everything else only at rest; a cancelled reset alone may leave more.
   The calls that return at once are included.
   */
  lemma ReturnValues(s: State, l: Label)
    requires Reachable(s) && Enabled(s, l) && !l.TaskStep? && Next(s, l).user.Idle?
    ensures Returned(s.user, Next(s, l))
  {
    ReachableInv(s);
    match l
    case Call(api, sent) => CallReturns(s, api, sent);
    case Resumed(sent) => ResumedReturns(s, sent);
    case Opened(auth, sent) => assert false;
    case Heard(r, sent) => HeardReturns(s, r, sent);
    case Failed => BrokenReturns(s);
    case Cancelled => BrokenReturns(s);
  }
}
