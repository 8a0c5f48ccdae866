/**
 The asynchronous lock object: one user operation (the state lock serialises them) and the
 renew tasks, on one event loop. Code between two awaits runs alone, so a step runs from one
 suspension point of _async.py to the next; at every suspension point of an operation the
 step may be a cancellation. A cancelled renew task gets CancelledError at its next step.
 Taking the I/O lock always counts as a suspension point, also when asyncio.Lock grants a free
 lock without suspending: that only adds interleavings.
 */
module AsyncMachine {
  import opened Basics
  import opened Session
  import opened Lifecycle
  import opened Runs

  datatype Holder = User | Task(id: nat)

  /** What follows _close_unlocked. */
  datatype Then = Rearm(op: Op) | Leave(ret: Ret)

  /** The suspension points of the user operations. */
  datatype UserPc =
    | Idle
    | ResetTask(op: Op, t: nat)                      // line 506: waiting for the cancelled renew task
    | CloseTask(th: Then, closing: Option<nat>, t: nat) // line 491: the same inside _close_unlocked
    | CloseConn(th: Then, closed: nat)               // line 493: wait_closed
    | Opening(op: Op)                                // line 514
    | Authing(op: Op, c: nat)                        // line 625: auth in flight
    | AuthClosing(ret: Ret, c: nat)                  // line 628: wait_closed
    | Asking(cmd: Cmd, c: nat)                       // lines 392, 411, 436: l, e or w in flight
    | RelLock                                        // line 456: taking the I/O lock
    | RelTask(t: nat)                                // line 457: waiting for the cancelled task, holding the I/O lock
    | Releasing(c: nat, tok: Token)                  // line 458: r in flight, holding the I/O lock

  /** The suspension points of a renew task. */
  datatype TaskPc = TNew | TSleep | TLock | TRenew(c: nat, tok: Token) | TDone

  datatype TaskState = TaskState(pc: TaskPc, cancelled: bool)

  datatype Conn = Conn(open: bool, trace: seq<Event>, phase: Phase)

  /** The fields, everything ever created, and whether a cancelled reset has left the instance without its renew task. */
  datatype State = State(
    conn: Option<nat>, token: Option<Token>, lease: int, closed: bool,
    task: Option<nat>, io: Option<Holder>,
    conns: seq<Conn>, tasks: seq<TaskState>,
    user: UserPc, last: Ret, orphaned: bool)

  const INITIAL: State := State(None, None, 0, false, None, None, [], [], Idle, NoRet, false)

  /** sent says whether the next frame passes its validation and is handed to an open transport. */
  datatype Label =
    | Call(api: Api, sent: bool)
    | Resumed(sent: bool)            // the awaited task ended, the lock was granted, or wait_closed returned
    | Opened(auth: bool, sent: bool) // open_connection returned; auth says whether a token is configured
    | Heard(r: Reply, sent: bool)
    | Failed                         // open_connection or a command raised
    | Cancelled
    | TaskStep(i: nat, ch: TaskChoice)

  datatype TaskChoice = Begun | Elapsed | Locked(sent: bool) | TaskHeard(r: Reply) | TaskFailed | Cancel

  // ----- lookups and small updates

  function ConnAt(s: State, c: nat): Conn {
    if c < |s.conns| then s.conns[c] else Conn(false, [], Over)
  }

  function TaskAt(s: State, i: nat): TaskState {
    if i < |s.tasks| then s.tasks[i] else TaskState(TDone, true)
  }

  function SetConn(s: State, c: nat, k: Conn): State {
    if c < |s.conns| then s.(conns := s.conns[c := k]) else s
  }

  function SetTask(s: State, i: nat, t: TaskState): State {
    if i < |s.tasks| then s.(tasks := s.tasks[i := t]) else s
  }

  function Emit(s: State, c: nat, e: Event): State {
    var k := ConnAt(s, c);
    SetConn(s, c, k.(trace := k.trace + [e], phase := Advance(k.phase, e)))
  }

  /** close_nowait. */
  function CloseNow(s: State, c: nat): State {
    SetConn(s, c, ConnAt(s, c).(open := false))
  }

  function CloseMaybe(s: State, c: Option<nat>): State {
    if c.Some? then CloseNow(s, c.value) else s
  }

  function Finish(s: State, ret: Ret): State { s.(user := Idle, last := ret) }

  // ----- _close_unlocked, lines 483-503

  /** Where _close_unlocked returns to; re-arming clears the flag and starts to dial. */
  function AfterClose(s: State, th: Then): State {
    match th
    case Rearm(op) => s.(closed := false, user := Opening(op))
    case Leave(ret) => Finish(s, ret)
  }

  /** The current renew task is to be cancelled and awaited. */
  predicate MustCancel(s: State) { s.task.Some? && !TaskAt(s, s.task.value).pc.TDone? }

  /** task.cancel() on the current renew task, which is no longer the instance's. */
  function CancelTask(s: State): State
    requires s.task.Some?
  {
    var t := s.task.value;
    SetTask(s, t, TaskAt(s, t).(cancelled := true)).(task := None)
  }

  /** After the renew task, if any, is out of the way. */
  function CloseTail(s: State, th: Then, c: Option<nat>): State {
    if c.Some? then CloseNow(s, c.value).(user := CloseConn(th, c.value)) else AfterClose(s, th)
  }

  /** From the start of _close_unlocked to its first suspension point. */
  function Close(s: State, th: Then): State {
    if s.closed && s.conn.None? && s.task.None? then AfterClose(s.(token := None, lease := 0), th)
    else
      var u := CloseMaybe(s, s.conn).(closed := true, conn := None, token := None, lease := 0, orphaned := false);
      if MustCancel(u) then CancelTask(u).(user := CloseTask(th, s.conn, u.task.value))
      else CloseTail(u.(task := None), th, s.conn)
  }

  // ----- commands of an attempt

  /** The command is written, or raises before that and closes the instance. */
  function Ask(s: State, cmd: Cmd, c: nat, sent: bool): State {
    if sent && ConnAt(s, c).open then Emit(s, c, Sent(CmdFrame(cmd))).(user := Asking(cmd, c))
    else Close(s, Leave(RetRaised))
  }

  function AdoptAndAsk(s: State, op: Op, c: nat, sent: bool): State {
    Ask(s.(conn := Some(c)), CmdOf(op), c, sent)
  }

  /** A grant: fields set and a renew task created, without a suspension in between. */
  function Grant(s: State, cmd: Cmd, tok: Token, lease: int): State {
    Finish(s.(token := Some(tok), lease := lease, tasks := s.tasks + [TaskState(TNew, false)], task := Some(|s.tasks|)), GrantRet(cmd))
  }

  function AskHeard(s: State, cmd: Cmd, r: Reply): State {
    if r.Granted? then Grant(s, cmd, r.token, r.lease)
    else if r.Queued? && cmd.CmdEnqueue? then Finish(s, RetQueued)
    else if r.TimedOut? && !cmd.CmdEnqueue? then Close(s, Leave(RetFalse))
    else Close(s, Leave(RetRaised))
  }

  function AuthFailed(s: State, c: nat, ret: Ret): State { CloseNow(s, c).(user := AuthClosing(ret, c)) }

  function OpenedNext(s: State, op: Op, auth: bool, sent: bool): State {
    var c := |s.conns|;
    var u := s.(conns := s.conns + [Conn(true, [], Fresh)]);
    if !auth then AdoptAndAsk(u, op, c, sent)
    else if sent then Emit(u, c, Sent(Auth)).(user := Authing(op, c))
    else AuthFailed(u, c, RetRaised)
  }

  // ----- _release_unlocked, lines 453-479

  /** Leaving the I/O lock; the finally clause closes. */
  function ReleaseEnd(s: State, ret: Ret): State { Close(s.(io := None), Leave(ret)) }

  function SendRelease(s: State, sent: bool): State {
    if s.conn.None? || s.token.None? then ReleaseEnd(s, RetFalse)
    else if sent && ConnAt(s, s.conn.value).open then
      Emit(s, s.conn.value, Sent(Release(s.token.value))).(user := Releasing(s.conn.value, s.token.value))
    else ReleaseEnd(s, RetFalse)
  }

  /** With the I/O lock just taken. */
  function ReleaseBody(s: State, sent: bool): State {
    var u := s.(io := Some(User));
    if MustCancel(u) then CancelTask(u).(user := RelTask(u.task.value)) else SendRelease(u.(task := None), sent)
  }

  // ----- user steps

  function Reset(s: State, op: Op): State {
    if MustCancel(s) then CancelTask(s).(user := ResetTask(op, s.task.value)) else Close(s.(task := None), Rearm(op))
  }

  function CallNext(s: State, api: Api, sent: bool): State {
    match api
    case ApiAcquire => Reset(s, OpAcquire)
    case ApiEnqueue => Reset(s, OpEnqueue)
    case ApiWait =>
      if s.token.Some? then Finish(s, RetTrue)
      else if s.conn.None? then Finish(s, RetRaised)
      else Ask(s, CmdWait, s.conn.value, sent)
    case ApiRelease => s.(user := RelLock)
    case ApiClose => Close(s, Leave(RetUnit))
  }

  function ResumedNext(s: State, sent: bool): State {
    match s.user
    case ResetTask(op, _) => Close(s, Rearm(op))
    case CloseTask(th, c, _) => CloseTail(s, th, c)
    case CloseConn(th, _) => AfterClose(s, th)
    case AuthClosing(ret, _) => Finish(s, ret)
    case RelLock => ReleaseBody(s, sent)
    case RelTask(_) => SendRelease(s, sent)
    case _ => s
  }

  function HeardNext(s: State, r: Reply, sent: bool): State {
    match s.user
    case Authing(op, c) =>
      var u := Emit(s, c, Got(r));
      if r == Done then AdoptAndAsk(u, op, c, sent) else AuthFailed(u, c, RetRaised)
    case Asking(cmd, c) => AskHeard(Emit(s, c, Got(r)), cmd, r)
    case Releasing(c, _) => ReleaseEnd(Emit(s, c, Got(r)), if r == Done then RetTrue else RetFalse)
    case _ => s
  }

  /** The awaited I/O raises: command closes its transport. */
  function FailedNext(s: State): State {
    match s.user
    case Opening(_) => Finish(s, RetRaised)
    case Authing(_, c) => AuthFailed(s, c, RetRaised)
    case Asking(_, c) => Close(CloseNow(s, c), Leave(RetRaised))
    case Releasing(c, _) => ReleaseEnd(CloseNow(s, c), RetFalse)
    case _ => s
  }

  /** CancelledError at the suspension point. */
  function CancelledNext(s: State): State {
    match s.user
    case ResetTask(_, _) => Finish(s.(orphaned := s.token.Some?), RetCancelled)
    case Authing(_, c) => AuthFailed(s, c, RetCancelled)
    case Asking(_, c) => Close(CloseNow(s, c), Leave(RetCancelled))
    case RelLock => Close(s, Leave(RetCancelled))
    case RelTask(_) => ReleaseEnd(s, RetCancelled)
    case Releasing(c, _) => ReleaseEnd(CloseNow(s, c), RetCancelled)
    case _ => Finish(s, RetCancelled)
  }

  predicate InFlight(u: UserPc) { u.Authing? || u.Asking? || u.Releasing? }

  function FlightConn(u: UserPc): nat
    requires InFlight(u)
  {
    u.c
  }

  predicate CanResume(s: State) {
    match s.user
    case ResetTask(_, t) => TaskAt(s, t).pc.TDone?
    case CloseTask(_, _, t) => TaskAt(s, t).pc.TDone?
    case RelTask(t) => TaskAt(s, t).pc.TDone?
    case RelLock => s.io.None?
    case CloseConn(_, _) => true
    case AuthClosing(_, _) => true
    case _ => false
  }

  predicate UserEnabled(s: State, l: Label) {
    match l
    case Call(_, _) => s.user.Idle?
    case Resumed(_) => CanResume(s)
    case Opened(_, _) => s.user.Opening?
    case Heard(r, _) => InFlight(s.user) && ConnAt(s, FlightConn(s.user)).open && ReplyInBounds(r)
    case Failed => s.user.Opening? || InFlight(s.user)
    case Cancelled => !s.user.Idle?
    case TaskStep(_, _) => false
  }

  function UserNext(s: State, l: Label): State
    requires UserEnabled(s, l)
  {
    match l
    case Call(api, sent) => CallNext(s, api, sent)
    case Resumed(sent) => ResumedNext(s, sent)
    case Opened(auth, sent) => OpenedNext(s, s.user.op, auth, sent)
    case Heard(r, sent) => HeardNext(s, r, sent)
    case Failed => FailedNext(s)
    case Cancelled => CancelledNext(s)
  }

  // ----- the renew task, lines 555-608

  function SetPc(s: State, i: nat, pc: TaskPc): State { SetTask(s, i, TaskAt(s, i).(pc := pc)) }

  /** _handle_renew_failure, lines 587-594. */
  function RenewFailed(s: State, c: nat): State {
    if !s.closed && s.conn == Some(c) then CloseNow(s.(conn := None, token := None, lease := 0, orphaned := false), c) else s
  }

  /** A tick with the I/O lock just taken, up to the renew in flight or to the end of the task. */
  function TickBody(s: State, i: nat, sent: bool): State {
    if s.closed || s.conn.None? || s.token.None? then SetPc(s, i, TDone)
    else
      var c, tok := s.conn.value, s.token.value;
      if sent && ConnAt(s, c).open then SetPc(Emit(s, c, Sent(Renew(tok))).(io := Some(Task(i))), i, TRenew(c, tok))
      else SetPc(RenewFailed(s, c), i, TDone)
  }

  /** _update_lease, lines 606-608. */
  function UpdateLease(s: State, rem: int): State {
    if rem > 0 && s.token.Some? && !s.closed then s.(lease := rem) else s
  }

  function RenewHeard(s: State, i: nat, c: nat, r: Reply): State {
    var u := Emit(s, c, Got(r)).(io := None);
    if r.Renewed? then SetPc(UpdateLease(u, r.remaining), i, TSleep) else SetPc(RenewFailed(u, c), i, TDone)
  }

  function TaskCancelled(s: State, i: nat): State {
    var pc := TaskAt(s, i).pc;
    SetPc(if pc.TRenew? then CloseNow(s, pc.c).(io := None) else s, i, TDone)
  }

  predicate TaskEnabled(s: State, i: nat, ch: TaskChoice) {
    var t := TaskAt(s, i);
    if t.pc.TDone? then false
    else if t.cancelled then ch.Cancel?
    else match t.pc
      case TNew => ch.Begun?
      case TSleep => ch.Elapsed?
      case TLock => ch.Locked? && s.io.None?
      case TRenew(c, _) => (ch.TaskHeard? && ConnAt(s, c).open && ReplyInBounds(ch.r)) || ch.TaskFailed?
  }

  function TaskNext(s: State, i: nat, ch: TaskChoice): State {
    var pc := TaskAt(s, i).pc;
    match ch
    case Begun => SetPc(s, i, TSleep)
    case Elapsed => SetPc(s, i, TLock)
    case Locked(sent) => TickBody(s, i, sent)
    case TaskHeard(r) => if pc.TRenew? then RenewHeard(s, i, pc.c, r) else s
    case TaskFailed => if pc.TRenew? then SetPc(RenewFailed(CloseNow(s, pc.c).(io := None), pc.c), i, TDone) else s
    case Cancel => TaskCancelled(s, i)
  }

  // ----- steps and runs

  predicate Enabled(s: State, l: Label) {
    if l.TaskStep? then l.i < |s.tasks| && TaskEnabled(s, l.i, l.ch) else UserEnabled(s, l)
  }

  function Next(s: State, l: Label): State
    requires Enabled(s, l)
  {
    if l.TaskStep? then TaskNext(s, l.i, l.ch) else UserNext(s, l)
  }

  /** The step, or nothing if it cannot be taken. */
  function Step(s: State, l: Label): State { if Enabled(s, l) then Next(s, l) else s }

  /** labels can be taken one after another from s. */
  predicate Possible(s: State, labels: seq<Label>) { Legal(Enabled, Step, s, labels) }

  function After(s: State, labels: seq<Label>): State { End(Step, s, labels) }

  predicate NoCalls(labels: seq<Label>) { forall i :: 0 <= i < |labels| ==> !labels[i].Call? }
}
