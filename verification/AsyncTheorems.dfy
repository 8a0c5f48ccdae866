/** What the invariant of the asynchronous machine means for its users, over every run. */
module AsyncTheorems {
  import opened Basics
  import opened Session
  import opened Lifecycle
  import opened AsyncMachine
  import opened Runs
  import opened AsyncInvariant

  /** s is the end of a run of a fresh instance, with cancellations anywhere. */
  ghost predicate Reachable(s: State) {
    exists labels :: Possible(INITIAL, labels) && After(INITIAL, labels) == s
  }

  lemma ReachableInv(s: State)
    requires Reachable(s)
    ensures Inv(s)
  {
    var labels :| Possible(INITIAL, labels) && After(INITIAL, labels) == s;
    InitialInv();
    forall t, l | Inv(t) && Enabled(t, l) ensures Inv(Step(t, l)) { NextKeeps(t, l); }
    Invariant(Enabled, Step, t => Inv(t), INITIAL, labels);
  }

  // ----- sessions on the wire

  /** The phase kept with each connection is the phase of its trace. */
  ghost predicate PhasesTrue(s: State) {
    forall c :: 0 <= c < |s.conns| ==> s.conns[c].phase == Run(s.conns[c].trace)
  }

  predicate SameTalk(s: State, t: State, c: nat) {
    ConnAt(t, c).trace == ConnAt(s, c).trace && ConnAt(t, c).phase == ConnAt(s, c).phase
  }

  /** Nothing was sent or read between s and t. */
  ghost predicate Silent(s: State, t: State) {
    |s.conns| == |t.conns| && forall c :: 0 <= c < |s.conns| ==> SameTalk(s, t, c)
  }

  lemma SilentPhases(s: State, t: State)
    requires PhasesTrue(s) && Silent(s, t)
    ensures PhasesTrue(t)
  {
    forall c | 0 <= c < |t.conns| ensures t.conns[c].phase == Run(t.conns[c].trace) { assert SameTalk(s, t, c); }
  }

  lemma EmitPhases(s: State, c: nat, e: Event)
    requires PhasesTrue(s)
    ensures PhasesTrue(Emit(s, c, e))
  {
    var t := Emit(s, c, e);
    forall d | 0 <= d < |t.conns| ensures t.conns[d].phase == Run(t.conns[d].trace) {
      if d == c {
        RunAppend(s.conns[c].trace, e);
      } else {
        assert t.conns[d] == s.conns[d];
      }
    }
  }

  lemma CloseSilent(s: State, th: Then)
    ensures Silent(s, Close(s, th))
  {
  }

  lemma ClosePhases(s: State, th: Then)
    requires PhasesTrue(s)
    ensures PhasesTrue(Close(s, th))
  {
    CloseSilent(s, th);
    SilentPhases(s, Close(s, th));
  }

  lemma AskPhases(s: State, cmd: Cmd, c: nat, sent: bool)
    requires PhasesTrue(s)
    ensures PhasesTrue(Ask(s, cmd, c, sent))
  {
    EmitPhases(s, c, Sent(CmdFrame(cmd)));
    ClosePhases(s, Leave(RetRaised));
  }

  lemma SendReleasePhases(s: State, sent: bool)
    requires PhasesTrue(s)
    ensures PhasesTrue(SendRelease(s, sent))
  {
    ClosePhases(s.(io := None), Leave(RetFalse));
    if s.conn.Some? && s.token.Some? {
      EmitPhases(s, s.conn.value, Sent(Release(s.token.value)));
    }
  }

  lemma HeardPhases(s: State, r: Reply, sent: bool)
    requires PhasesTrue(s) && InFlight(s.user)
    ensures PhasesTrue(HeardNext(s, r, sent))
  {
    var c := FlightConn(s.user);
    var u := Emit(s, c, Got(r));
    EmitPhases(s, c, Got(r));
    match s.user
    case Authing(op, _) => AskPhases(u.(conn := Some(c)), CmdOf(op), c, sent);
    case Asking(_, _) =>
      ClosePhases(u, Leave(RetFalse));
      ClosePhases(u, Leave(RetRaised));
    case Releasing(_, _) => ClosePhases(u.(io := None), Leave(if r == Done then RetTrue else RetFalse));
  }

  lemma OpenedPhases(s: State, op: Op, auth: bool, sent: bool)
    requires PhasesTrue(s)
    ensures PhasesTrue(OpenedNext(s, op, auth, sent))
  {
    var c := |s.conns|;
    var u := s.(conns := s.conns + [Conn(true, [], Fresh)]);
    AskPhases(u.(conn := Some(c)), CmdOf(op), c, sent);
    EmitPhases(u, c, Sent(Auth));
  }

  lemma CloseNowSilent(s: State, c: nat, io: Option<Holder>, th: Then)
    ensures Silent(s, Close(CloseNow(s, c).(io := io), th))
  {
    var u := CloseNow(s, c).(io := io);
    assert Silent(s, u);
    CloseSilent(u, th);
    SilentThen(s, u, Close(u, th));
  }

  lemma SilentThen(s: State, t: State, u: State)
    requires Silent(s, t) && Silent(t, u)
    ensures Silent(s, u)
  {
    forall c | 0 <= c < |s.conns| ensures SameTalk(s, u, c) { assert SameTalk(s, t, c) && SameTalk(t, u, c); }
  }

  lemma UnlockSilent(s: State, th: Then)
    ensures Silent(s, Close(s.(io := None), th))
  {
    CloseSilent(s.(io := None), th);
    SilentThen(s, s.(io := None), Close(s.(io := None), th));
  }

  /** A failed operation only closes. */
  lemma FailedSilent(s: State)
    ensures Silent(s, FailedNext(s))
  {
    match s.user
    case Asking(_, c) => CloseNowSilent(s, c, s.io, Leave(RetRaised));
    case Releasing(c, _) => CloseNowSilent(s, c, None, Leave(RetFalse));
    case _ =>
  }

  /** So does a cancelled one. */
  lemma CancelledSilent(s: State)
    ensures Silent(s, CancelledNext(s))
  {
    match s.user
    case Asking(_, c) => CloseNowSilent(s, c, s.io, Leave(RetCancelled));
    case RelLock => CloseSilent(s, Leave(RetCancelled));
    case RelTask(_) => UnlockSilent(s, Leave(RetCancelled));
    case Releasing(c, _) => CloseNowSilent(s, c, None, Leave(RetCancelled));
    case Authing(_, c) => assert Silent(s, AuthFailed(s, c, RetCancelled));
    case _ => assert CancelledNext(s).conns == s.conns;
  }

  lemma ResumedPhases(s: State, sent: bool)
    requires PhasesTrue(s)
    ensures PhasesTrue(ResumedNext(s, sent))
  {
    match s.user
    case ResetTask(op, _) => ClosePhases(s, Rearm(op));
    case RelLock =>
      var u := s.(io := Some(User));
      if MustCancel(u) { SilentPhases(s, ResumedNext(s, sent)); } else { SendReleasePhases(u.(task := None), sent); }
    case RelTask(_) => SendReleasePhases(s, sent);
    case _ => SilentPhases(s, ResumedNext(s, sent));
  }

  lemma ResetPhases(s: State, op: Op)
    requires PhasesTrue(s)
    ensures PhasesTrue(Reset(s, op))
  {
    if MustCancel(s) {
      SilentPhases(s, Reset(s, op));
    } else {
      ClosePhases(s.(task := None), Rearm(op));
    }
  }

  lemma CallPhases(s: State, api: Api, sent: bool)
    requires PhasesTrue(s)
    ensures PhasesTrue(CallNext(s, api, sent))
  {
    match api
    case ApiAcquire => ResetPhases(s, OpAcquire);
    case ApiEnqueue => ResetPhases(s, OpEnqueue);
    case ApiWait =>
      if s.token.None? && s.conn.Some? { AskPhases(s, CmdWait, s.conn.value, sent); }
    case ApiRelease =>
    case ApiClose => ClosePhases(s, Leave(RetUnit));
  }

  lemma UserPhases(s: State, l: Label)
    requires PhasesTrue(s) && UserEnabled(s, l)
    ensures PhasesTrue(UserNext(s, l))
  {
    match l
    case Call(api, sent) => CallPhases(s, api, sent);
    case Resumed(sent) => ResumedPhases(s, sent);
    case Opened(auth, sent) => OpenedPhases(s, s.user.op, auth, sent);
    case Heard(r, sent) => HeardPhases(s, r, sent);
    case Failed =>
      FailedSilent(s);
      SilentPhases(s, FailedNext(s));
    case Cancelled =>
      CancelledSilent(s);
      SilentPhases(s, CancelledNext(s));
  }

  lemma TickPhases(s: State, i: nat, sent: bool)
    requires PhasesTrue(s)
    ensures PhasesTrue(TickBody(s, i, sent))
  {
    if s.closed || s.conn.None? || s.token.None? || !sent || !ConnAt(s, s.conn.value).open {
      SilentPhases(s, TickBody(s, i, sent));
    } else {
      EmitPhases(s, s.conn.value, Sent(Renew(s.token.value)));
    }
  }

  lemma RenewHeardPhases(s: State, i: nat, c: nat, r: Reply)
    requires PhasesTrue(s)
    ensures PhasesTrue(RenewHeard(s, i, c, r))
  {
    EmitPhases(s, c, Got(r));
    SilentPhases(Emit(s, c, Got(r)), RenewHeard(s, i, c, r));
  }

  lemma TaskPhases(s: State, i: nat, ch: TaskChoice)
    requires PhasesTrue(s)
    ensures PhasesTrue(TaskNext(s, i, ch))
  {
    match ch
    case Locked(sent) => TickPhases(s, i, sent);
    case TaskHeard(r) =>
      if TaskAt(s, i).pc.TRenew? { RenewHeardPhases(s, i, TaskAt(s, i).pc.c, r); }
    case Begun => SilentPhases(s, TaskNext(s, i, ch));
    case Elapsed => SilentPhases(s, TaskNext(s, i, ch));
    case TaskFailed => SilentPhases(s, TaskNext(s, i, ch));
    case Cancel => SilentPhases(s, TaskNext(s, i, ch));
  }

  lemma PhasesKept(s: State, l: Label)
    requires PhasesTrue(s) && Enabled(s, l)
    ensures PhasesTrue(Step(s, l))
  {
    if l.TaskStep? { TaskPhases(s, l.i, l.ch); } else { UserPhases(s, l); }
  }

  lemma ReachablePhases(s: State)
    requires Reachable(s)
    ensures PhasesTrue(s)
  {
    var labels :| Possible(INITIAL, labels) && After(INITIAL, labels) == s;
    forall t, l | PhasesTrue(t) && Enabled(t, l) ensures PhasesTrue(Step(t, l)) { PhasesKept(t, l); }
    Invariant(Enabled, Step, t => PhasesTrue(t), INITIAL, labels);
  }

  /** On every connection the frames sent so far are a session, whatever was cancelled. */
  lemma EverySession(s: State, c: nat)
    requires Reachable(s) && c < |s.conns|
    ensures Run(s.conns[c].trace) != Bad
    ensures InGrammar(Frames(s.conns[c].trace), GrantOf(s.conns[c].trace))
  {
    ReachableInv(s);
    ReachablePhases(s);
    assert ConnOk(s, c, HandOf(s.user));
    SessionGrammar(s.conns[c].trace);
  }

  /** Once a release is on the wire no renew follows it, and no two commands are ever in flight together. */
  lemma ReleaseOrder(s: State, c: nat, i: nat)
    requires Reachable(s) && c < |s.conns| && i < |s.conns[c].trace| && s.conns[c].trace[i].Sent?
    ensures i + 1 < |s.conns[c].trace| ==> s.conns[c].trace[i + 1].Got?
    ensures s.conns[c].trace[i].frame.Release? ==> forall j :: i < j < |s.conns[c].trace| ==> !s.conns[c].trace[j].Sent?
  {
    var trace := s.conns[c].trace;
    EverySession(s, c);
    if i + 1 < |trace| { NoOverlap(trace, i); }
    if trace[i].frame.Release? {
      forall j | i < j < |trace| ensures !trace[j].Sent? { ReleaseIsLast(trace, i, j); }
    }
  }

  // ----- tasks

  /** A task that was neither cancelled nor has ended is the instance's renew task, and there is only one. */
  lemma UniqueLiveTask(s: State, i: nat)
    requires Reachable(s) && i < |s.tasks| && Lively(s.tasks[i])
    ensures s.task == Some(i) && s.conn.Some? && s.token.Some? && !s.closed
    ensures forall j :: 0 <= j < |s.tasks| && Lively(s.tasks[j]) ==> j == i
  {
    ReachableInv(s);
    assert TaskOk(s, i);
    forall j | 0 <= j < |s.tasks| && Lively(s.tasks[j]) ensures j == i { assert TaskOk(s, j); }
  }

  /** The two states differ in the connection, token or lease field, in the closed flag, or in whether a reset was cancelled. */
  predicate Tampers(s: State, t: State) {
    t.conn != s.conn || t.token != s.token || t.lease != s.lease || t.closed != s.closed || t.orphaned != s.orphaned
  }

  lemma OldTaskQuiet(s: State, i: nat, ch: TaskChoice)
    requires Inv(s) && i < |s.tasks| && TaskEnabled(s, i, ch) && s.task != Some(i)
    ensures !Tampers(s, TaskNext(s, i, ch)) && Silent(s, TaskNext(s, i, ch))
    ensures s.conn.Some? && ConnAt(TaskNext(s, i, ch), s.conn.value) != ConnAt(s, s.conn.value) ==>
      s.task.None? && (s.orphaned || s.user.ResetTask? || s.user.RelTask?)
    ensures s.user.Authing? ==> ConnAt(TaskNext(s, i, ch), s.user.c) == ConnAt(s, s.user.c)
  {
    assert TaskOk(s, i);
  }

  /**
   Isolation: a task that is no longer the instance's renew task writes no field, sends nothing
   and reads nothing. It may close the instance's connection only while the operation that
   cancelled it still waits for it, or after that operation was cancelled itself.
   */
  lemma OldTaskIsolation(s: State, i: nat, ch: TaskChoice)
    requires Reachable(s) && i < |s.tasks| && TaskEnabled(s, i, ch) && s.task != Some(i)
    ensures !Tampers(s, TaskNext(s, i, ch)) && Silent(s, TaskNext(s, i, ch))
    ensures s.conn.Some? && ConnAt(TaskNext(s, i, ch), s.conn.value) != ConnAt(s, s.conn.value) ==>
      s.task.None? && (s.orphaned || s.user.ResetTask? || s.user.RelTask?)
    ensures s.user.Authing? ==> ConnAt(TaskNext(s, i, ch), s.user.c) == ConnAt(s, s.user.c)
  {
    ReachableInv(s);
    OldTaskQuiet(s, i, ch);
  }

  // ----- held means renewing, except across a cancelled reset

  predicate KeptAlive(s: State) { s.task.Some? && s.task.value < |s.tasks| && Lively(s.tasks[s.task.value]) }

  /**
   Between operations a token is the one granted on the connection held, with a lease; it is being renewed
   unless a reset was cancelled.
   */
  lemma HeldCoherence(s: State)
    requires Reachable(s) && s.user.Idle? && s.token.Some?
    ensures s.conn.Some? && s.conn.value < |s.conns| && GrantOf(s.conns[s.conn.value].trace) == s.token
    ensures 1 <= s.lease <= MAX_PROTOCOL_SECONDS && !s.closed
    ensures KeptAlive(s) <==> !s.orphaned
  {
    ReachableInv(s);
    EverySession(s, s.conn.value);
    ReachablePhases(s);
    var p := TraceParts(s.conns[s.conn.value].trace);
  }

  /** The flag is raised by nothing but the cancellation of a reset that was waiting for its renew task, with a token held. */
  lemma OrphanedExactly(s: State, l: Label)
    requires Reachable(s) && Enabled(s, l) && !s.orphaned
    ensures Next(s, l).orphaned <==> l.Cancelled? && s.user.ResetTask? && s.token.Some?
  {
    ReachableInv(s);
    if l.TaskStep? {
      TaskUnorphaned(s, l.i, l.ch);
    } else if !l.Cancelled? {
      UserUnorphaned(s, l);
    }
  }

  lemma CloseUnorphaned(s: State, th: Then)
    requires !s.orphaned
    ensures !Close(s, th).orphaned
  {
  }

  lemma CallUnorphaned(s: State, api: Api, sent: bool)
    requires !s.orphaned
    ensures !CallNext(s, api, sent).orphaned
  {
    match api
    case ApiAcquire => CloseUnorphaned(s.(task := None), Rearm(OpAcquire));
    case ApiEnqueue => CloseUnorphaned(s.(task := None), Rearm(OpEnqueue));
    case ApiWait => CloseUnorphaned(s, Leave(RetRaised));
    case ApiRelease =>
    case ApiClose => CloseUnorphaned(s, Leave(RetUnit));
  }

  lemma SendReleaseUnorphaned(s: State, sent: bool)
    requires !s.orphaned
    ensures !SendRelease(s, sent).orphaned
  {
    CloseUnorphaned(s.(io := None), Leave(RetFalse));
  }

  lemma ResumedUnorphaned(s: State, sent: bool)
    requires !s.orphaned
    ensures !ResumedNext(s, sent).orphaned
  {
    match s.user
    case ResetTask(op, _) => CloseUnorphaned(s, Rearm(op));
    case RelLock => SendReleaseUnorphaned(s.(io := Some(User), task := None), sent);
    case RelTask(_) => SendReleaseUnorphaned(s, sent);
    case _ =>
  }

  lemma AskUnorphaned(s: State, cmd: Cmd, c: nat, sent: bool)
    requires !s.orphaned
    ensures !Ask(s, cmd, c, sent).orphaned
  {
    CloseUnorphaned(s, Leave(RetRaised));
  }

  lemma HeardUnorphaned(s: State, r: Reply, sent: bool)
    requires !s.orphaned && InFlight(s.user)
    ensures !HeardNext(s, r, sent).orphaned
  {
    var u := Emit(s, FlightConn(s.user), Got(r));
    match s.user
    case Authing(op, c) => AskUnorphaned(u.(conn := Some(c)), CmdOf(op), c, sent);
    case Asking(_, _) =>
      CloseUnorphaned(u, Leave(RetFalse));
      CloseUnorphaned(u, Leave(RetRaised));
    case Releasing(_, _) => CloseUnorphaned(u.(io := None), Leave(if r == Done then RetTrue else RetFalse));
  }

  lemma UserUnorphaned(s: State, l: Label)
    requires UserEnabled(s, l) && !l.Cancelled? && !s.orphaned
    ensures !UserNext(s, l).orphaned
  {
    if l.Call? {
      CallUnorphaned(s, l.api, l.sent);
    } else if l.Resumed? {
      ResumedUnorphaned(s, l.sent);
    } else if l.Heard? {
      HeardUnorphaned(s, l.r, l.sent);
    }
  }

  lemma TaskUnorphaned(s: State, i: nat, ch: TaskChoice)
    requires !s.orphaned
    ensures !TaskNext(s, i, ch).orphaned
  {
  }

  /** A first acquire, granted. */
  lemma FirstGrant(tok: Token) returns (labels: seq<Label>)
    ensures Possible(INITIAL, labels)
    ensures After(INITIAL, labels) == INITIAL.(conn := Some(0), token := Some(tok), lease := 30, task := Some(0), last := RetTrue,
      conns := After(INITIAL, labels).conns, tasks := [TaskState(TNew, false)])
    ensures |After(INITIAL, labels).conns| == 1 && After(INITIAL, labels).conns[0].open
  {
    Extend(Enabled, Step, INITIAL, [], Call(ApiAcquire, true));
    labels := [] + [Call(ApiAcquire, true)];
    assert After(INITIAL, labels) == INITIAL.(user := Opening(OpAcquire));
    Extend(Enabled, Step, INITIAL, labels, Opened(false, true));
    labels := labels + [Opened(false, true)];
    Extend(Enabled, Step, INITIAL, labels, Heard(Granted(tok, 30), true));
    labels := labels + [Heard(Granted(tok, 30), true)];
  }

  /** One grant, and a second acquire cancelled while it waits for the first renew task: held, and nobody renews. */
  lemma HoleReachable(tok: Token) returns (labels: seq<Label>)
    ensures Possible(INITIAL, labels)
    ensures var s := After(INITIAL, labels);
      s.user.Idle? && s.last == RetCancelled && s.token == Some(tok) && s.conn.Some? && ConnAt(s, s.conn.value).open && !KeptAlive(s)
  {
    labels := FirstGrant(tok);
    Extend(Enabled, Step, INITIAL, labels, Call(ApiAcquire, true));
    labels := labels + [Call(ApiAcquire, true)];
    Extend(Enabled, Step, INITIAL, labels, Cancelled);
    labels := labels + [Cancelled];
  }

  /** A renew that fails without being cancelled finds the instance open and its connection still in place. */
  lemma HandlerFindsItsConnection(s: State, i: nat)
    requires Reachable(s) && i < |s.tasks| && Lively(s.tasks[i]) && s.tasks[i].pc.TRenew?
    ensures s.conn == Some(s.tasks[i].pc.c) && s.token == Some(s.tasks[i].pc.tok) && !s.closed
  {
    ReachableInv(s);
    assert TaskOk(s, i);
  }

  // ----- connections

  /**
   Every open connection is the instance's or in the hands of the operation that authenticates it; between
   operations at most one is open.
   */
  lemma ConnectionConservation(s: State, c: nat)
    requires Reachable(s) && c < |s.conns| && s.conns[c].open
    ensures s.conn == Some(c) || (s.conn.None? && s.user.Authing? && s.user.c == c)
    ensures s.user.Idle? ==> s.conn == Some(c) && forall d :: 0 <= d < |s.conns| && s.conns[d].open ==> d == c
  {
    ReachableInv(s);
    assert ConnOk(s, c, HandOf(s.user));
    forall d | 0 <= d < |s.conns| && s.conns[d].open && s.user.Idle? ensures d == c { assert ConnOk(s, d, None); }
  }
}
