/** What the calls and the renew task of the asynchronous client send, and that they go on to send it. */
module AsyncSends {
  import opened Basics
  import opened Session
  import opened Lifecycle
  import opened AsyncMachine
  import opened AsyncInvariant
  import opened AsyncTheorems

  predicate LastSent(k: Conn, f: Frame) { k.trace != [] && k.trace[|k.trace| - 1] == Sent(f) }

  predicate LastReleased(k: Conn) {
    k.trace != [] && k.trace[|k.trace| - 1].Sent? && k.trace[|k.trace| - 1].frame.Release?
  }

  /** A reply that an operation reads directly follows the frame that it sent on the same connection. */
  lemma ReplyToOwnFrame(s: State, r: Reply, sent: bool)
    requires Reachable(s) && UserEnabled(s, Heard(r, sent))
    ensures var c := FlightConn(s.user);
      && c < |s.conns|
      && (s.user.Authing? ==> LastSent(s.conns[c], Auth))
      && (s.user.Asking? ==> LastSent(s.conns[c], CmdFrame(s.user.cmd)))
      && (s.user.Releasing? ==> LastReleased(s.conns[c]))
  {
    ReachableInv(s);
    ReachablePhases(s);
    LastIsFrame(s.conns[FlightConn(s.user)].trace);
  }

  /** A task that goes on after its renew has just read the answer to it. */
  lemma ReportIsAnswer(s: State, i: nat, ch: TaskChoice)
    requires Reachable(s) && i < |s.tasks| && TaskEnabled(s, i, ch)
    requires s.tasks[i].pc.TRenew? && TaskNext(s, i, ch).tasks[i].pc.TSleep?
    ensures ch.TaskHeard? && ch.r.Renewed?
    ensures var c := s.tasks[i].pc.c;
      c < |s.conns| && LastSent(s.conns[c], Renew(s.tasks[i].pc.tok)) && TaskNext(s, i, ch).conns[c].trace == s.conns[c].trace + [Got(ch.r)]
  {
    ReachableInv(s);
    ReachablePhases(s);
    assert TaskOk(s, i);
    LastIsFrame(s.conns[s.tasks[i].pc.c].trace);
  }

  // ----- going on to the send

  /** A connection, open, and a token. */
  predicate Ready(s: State, c: nat, t: Token) { s.conn == Some(c) && s.token == Some(t) && c < |s.conns| && s.conns[c].open }

  /**
   A release that has the I/O lock and its task out of the way, and finds a connection and a token, sends
   the release of that token on it.
   */
  lemma ReleaseGoesOn(s: State, c: nat, t: Token)
    requires Ready(s, c, t) && CanResume(s) && (s.user.RelTask? || (s.user.RelLock? && !MustCancel(s)))
    ensures var u := ResumedNext(s, true);
      && u.user == Releasing(c, t) && u.conns[c].trace == s.conns[c].trace + [Sent(Release(t))] && u.conns[c].open
      && u.io == if s.user.RelLock? then Some(User) else s.io
  {
  }

  /** With a live task it cancels that and waits for it first, and holds the lock meanwhile. */
  lemma ReleaseCancelsFirst(s: State, sent: bool)
    requires s.user.RelLock? && CanResume(s) && MustCancel(s)
    ensures var u := ResumedNext(s, sent);
      u.user == RelTask(s.task.value) && u.io == Some(User) && u.task.None? && u.token == s.token && u.conn == s.conn && u.conns == s.conns
  {
  }

  /** A tick that has the I/O lock, and finds the instance open, a connection and a token, sends the renew of that token on it. */
  lemma TickGoesOn(s: State, i: nat, c: nat, t: Token)
    requires Ready(s, c, t) && !s.closed && i < |s.tasks| && s.tasks[i].pc.TLock? && TaskEnabled(s, i, Locked(true))
    ensures var u := TaskNext(s, i, Locked(true));
      u.tasks[i].pc == TRenew(c, t) && u.io == Some(Task(i)) && u.conns[c].trace == s.conns[c].trace + [Sent(Renew(t))]
  {
  }

  /**
   A task that ends at its tick without a command has found the instance closed, or no connection or token,
   or could not send.
   */
  lemma TickGivesUp(s: State, i: nat, sent: bool)
    requires i < |s.tasks| && s.tasks[i].pc.TLock? && TaskEnabled(s, i, Locked(sent)) && TaskNext(s, i, Locked(sent)).tasks[i].pc.TDone?
    ensures s.closed || s.conn.None? || s.token.None? || !sent || !ConnAt(s, s.conn.value).open
  {
  }

  /** An uncancelled task sleeps, takes the I/O lock and ticks, one after the other. */
  lemma TaskTurns(s: State, i: nat, ch: TaskChoice)
    requires i < |s.tasks| && TaskEnabled(s, i, ch) && !s.tasks[i].cancelled
    ensures s.tasks[i].pc.TNew? ==> TaskNext(s, i, ch) == SetPc(s, i, TSleep)
    ensures s.tasks[i].pc.TSleep? ==> TaskNext(s, i, ch) == SetPc(s, i, TLock)
  {
  }

  /** A task ends only cancelled, or at a tick without a report. */
  lemma TaskEndsOnly(s: State, i: nat, ch: TaskChoice)
    requires i < |s.tasks| && TaskEnabled(s, i, ch) && TaskNext(s, i, ch).tasks[i].pc.TDone?
    ensures s.tasks[i].cancelled || ch.Locked? || ch.TaskFailed? || (ch.TaskHeard? && !ch.r.Renewed?)
  {
  }

  /** Everything may become of a command: it may fail at any time, be cancelled, and be answered with any decoded line. */
  lemma CommandOutcomes(s: State, r: Reply, sent: bool)
    ensures InFlight(s.user) ==> Enabled(s, Failed) && (Enabled(s, Heard(r, sent)) <==> ConnAt(s, FlightConn(s.user)).open && ReplyInBounds(r))
    ensures !s.user.Idle? ==> Enabled(s, Cancelled)
  {
  }

  lemma RenewOutcomes(s: State, i: nat, r: Reply)
    requires i < |s.tasks| && s.tasks[i].pc.TRenew? && !s.tasks[i].cancelled
    ensures Enabled(s, TaskStep(i, TaskFailed))
    ensures Enabled(s, TaskStep(i, TaskHeard(r))) <==> ConnAt(s, s.tasks[i].pc.c).open && ReplyInBounds(r)
  {
  }

  // ----- each call sends its own frames

  predicate OfThen(th: Then, op: Op) { th == Rearm(op) || th.Leave? }

  predicate OfAttempt(u: UserPc, op: Op) {
    match u
    case Idle => true
    case ResetTask(o, _) => o == op
    case CloseTask(th, _, _) => OfThen(th, op)
    case CloseConn(th, _) => OfThen(th, op)
    case Opening(o) => o == op
    case Authing(o, _) => o == op
    case AuthClosing(_, _) => true
    case Asking(cmd, _) => cmd == if op == OpAcquire then CmdAcquire else CmdEnqueue
    case _ => false
  }

  predicate Closing(u: UserPc) { (u.CloseTask? || u.CloseConn?) && u.th.Leave? }

  /** The suspension points of a call. */
  predicate OfCall(u: UserPc, api: Api) {
    match api
    case ApiAcquire => OfAttempt(u, OpAcquire)
    case ApiEnqueue => OfAttempt(u, OpEnqueue)
    case ApiWait => u.Idle? || (u.Asking? && u.cmd == CmdWait) || Closing(u)
    case ApiRelease => u.Idle? || u.RelLock? || u.RelTask? || u.Releasing? || Closing(u)
    case ApiClose => u.Idle? || Closing(u)
  }

  lemma LeavingOf(s: State, ret: Ret)
    ensures Close(s, Leave(ret)).user.Idle? || Closing(Close(s, Leave(ret)).user)
  {
  }

  lemma RearmingOf(s: State, op: Op)
    ensures OfAttempt(Close(s, Rearm(op)).user, op)
  {
  }

  lemma CallOf(s: State, api: Api, sent: bool)
    requires s.user.Idle?
    ensures OfCall(CallNext(s, api, sent).user, api)
  {
    match api
    case ApiAcquire => RearmingOf(s.(task := None), OpAcquire);
    case ApiEnqueue => RearmingOf(s.(task := None), OpEnqueue);
    case ApiWait => LeavingOf(s, RetRaised);
    case ApiRelease =>
    case ApiClose => LeavingOf(s, RetUnit);
  }

  lemma ResumedOf(s: State, api: Api, sent: bool)
    requires OfCall(s.user, api) && CanResume(s)
    ensures OfCall(ResumedNext(s, sent).user, api)
  {
    match s.user
    case ResetTask(op, _) => RearmingOf(s, op);
    case RelLock => LeavingOf(s.(io := None, task := None), RetFalse);
    case RelTask(_) => LeavingOf(s.(io := None), RetFalse);
    case _ =>
  }

  lemma AskOf(s: State, cmd: Cmd, c: nat, sent: bool)
    ensures var u := Ask(s, cmd, c, sent).user; u == Asking(cmd, c) || u.Idle? || Closing(u)
  {
    LeavingOf(s, RetRaised);
  }

  lemma OpenedOf(s: State, api: Api, auth: bool, sent: bool)
    requires OfCall(s.user, api) && s.user.Opening?
    ensures OfCall(OpenedNext(s, s.user.op, auth, sent).user, api)
  {
    AskOf(s.(conns := s.conns + [Conn(true, [], Fresh)], conn := Some(|s.conns|)), CmdOf(s.user.op), |s.conns|, sent);
  }

  lemma HeardOf(s: State, api: Api, r: Reply, sent: bool)
    requires OfCall(s.user, api) && InFlight(s.user)
    ensures OfCall(HeardNext(s, r, sent).user, api)
  {
    var c := FlightConn(s.user);
    var u := Emit(s, c, Got(r));
    match s.user
    case Authing(op, _) => AskOf(u.(conn := Some(c)), CmdOf(op), c, sent);
    case Asking(_, _) =>
      LeavingOf(u, RetFalse);
      LeavingOf(u, RetRaised);
    case Releasing(_, _) => LeavingOf(u.(io := None), if r == Done then RetTrue else RetFalse);
  }

  lemma BrokenOf(s: State, api: Api)
    requires OfCall(s.user, api) && !s.user.Idle?
    ensures OfCall(CancelledNext(s).user, api) && (s.user.Opening? || InFlight(s.user) ==> OfCall(FailedNext(s).user, api))
  {
    match s.user
    case Asking(_, c) =>
      LeavingOf(CloseNow(s, c), RetCancelled);
      LeavingOf(CloseNow(s, c), RetRaised);
    case RelLock => LeavingOf(s, RetCancelled);
    case RelTask(_) => LeavingOf(s.(io := None), RetCancelled);
    case Releasing(c, _) =>
      LeavingOf(CloseNow(s, c).(io := None), RetCancelled);
      LeavingOf(CloseNow(s, c).(io := None), RetFalse);
    case _ =>
  }

  lemma TaskStays(s: State, i: nat, ch: TaskChoice)
    ensures TaskNext(s, i, ch).user == s.user
  {
    if ch.Locked? { TickStays(s, i, ch.sent); }
  }

  lemma TickStays(s: State, i: nat, sent: bool)
    ensures TickBody(s, i, sent).user == s.user
  {
  }

  lemma StepOf(s: State, api: Api, l: Label)
    requires OfCall(s.user, api) && Enabled(s, l) && !l.Call?
    ensures OfCall(Next(s, l).user, api)
  {
    match l
    case Resumed(sent) => ResumedOf(s, api, sent);
    case Opened(auth, sent) => OpenedOf(s, api, auth, sent);
    case Heard(r, sent) => HeardOf(s, api, r, sent);
    case Failed => BrokenOf(s, api);
    case Cancelled => BrokenOf(s, api);
    case TaskStep(i, ch) => TaskStays(s, i, ch);
  }

  lemma {:induction false} RunOf(s: State, api: Api, labels: seq<Label>)
    requires OfCall(s.user, api) && NoCalls(labels) && Possible(s, labels)
    ensures OfCall(After(s, labels).user, api)
    decreases |labels|
  {
    if labels != [] {
      StepOf(s, api, labels[0]);
      RunOf(Next(s, labels[0]), api, labels[1..]);
    }
  }

  /** From its start to its return, whatever is cancelled, a call has only frames of its kind in flight. */
  lemma CallSends(s: State, api: Api, sent: bool, labels: seq<Label>)
    requires s.user.Idle? && NoCalls(labels) && Possible(CallNext(s, api, sent), labels)
    ensures var u := After(CallNext(s, api, sent), labels).user;
      && (u.Authing? ==> api.ApiAcquire? || api.ApiEnqueue?)
      && (u.Asking? ==> (u.cmd == CmdAcquire <==> api == ApiAcquire) && (u.cmd == CmdEnqueue <==> api == ApiEnqueue)
                        && (u.cmd == CmdWait <==> api == ApiWait))
      && (u.Releasing? ==> api == ApiRelease)
  {
    CallOf(s, api, sent);
    RunOf(CallNext(s, api, sent), api, labels);
  }

  /** The frames of the three commands. */
  lemma CommandFrames()
    ensures CmdFrame(CmdAcquire) == Acquire && CmdFrame(CmdEnqueue) == Enqueue && CmdFrame(CmdWait) == Frame.Wait
  {
  }
}
