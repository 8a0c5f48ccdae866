/**
 The synchronous lock object as a machine of interleaved steps: one user operation at a
 time (the state lock serialises them) and any number of renew workers, each holding the
 stop event of the attempt that started it. One step is one lock, event, field or I/O
 action of _sync.py; everything a step may choose freely is in its label.
 */
module SyncMachine {
  import opened Basics
  import opened Session
  import opened Lifecycle

  datatype Who = User | Worker(id: nat)

  /** Who asked _stop_renew to run. */
  datatype Kind = ForReset(op: Op) | ForRelease

  /** What follows _close_unlocked: re-arming for a new attempt, a failed command, a release, or a plain close(). */
  datatype Then = Rearm(op: Op) | Failed(timedOut: bool) | Released(ok: bool) | Plain

  /** _stop_renew, lines 605-611. */
  datatype StopPc = StopCheck | StopSet | StopJoin(t: nat) | StopClear

  /** The part of _release_unlocked that runs under the I/O lock, lines 501-522. */
  datatype RelPc = RelLock | RelConn | RelTok(c: nat) | RelSend(c: nat, tok: Token) | RelRecv(c: nat, tok: Token) | RelUnlock(ok: bool)

  /** _close_unlocked and _begin_close, lines 526-534. */
  datatype ClosePc = ClsCheck | ClsFlag | ClsSet

  /** _shutdown_and_close_conn, lines 541-548. */
  datatype ShutPc = ShutRead | ShutDown(c: nat) | ShutLock(c: nat) | ShutClose(c: nat) | ShutUnlock(c: nat) | ShutDetach(c: nat)

  /** _join_renew_thread and _clear_held_state, lines 550-560. */
  datatype ClearPc = ClrRead | ClrJoin(t: nat) | ClrThread | ClrTok | ClrLease

  /** The end of _reset_for_new_attempt, lines 566-567. */
  datatype RearmPc = RearmFlag | RearmEvent

  /** Dialling and authenticating, lines 571-579, 588-591 and 675-683. */
  datatype OpenPc = Dial | AuthSend(c: nat) | AuthRecv(c: nat) | AuthClose(c: nat) | Adopt(c: nat) | Require

  /** The command of an attempt, lines 436-495. */
  datatype InvokePc = CmdSend(c: nat) | CmdRecv(c: nat)

  /** What is done with a grant, lines 438, 467, 482 and 595-603. */
  datatype GrantPc = PutTok(tok: Token, lease: int) | PutLease(lease: int) | Start | Started(t: nat)

  /** Program counter of the user operation; the name says which line runs next. */
  datatype UserPc =
    | Idle
    | Stop(sp: StopPc, k: Kind)
    | Rel(rp: RelPc)
    | Cls(cp: ClosePc, th: Then)
    | Shut(hp: ShutPc, th: Then)
    | Clear(lp: ClearPc, th: Then)
    | Rearming(ap: RearmPc, op: Op)
    | Opening(xp: OpenPc, op: Op)
    | WaitTok | WaitConn
    | Invoke(ip: InvokePc, cmd: Cmd)
    | Grant(gp: GrantPc, cmd: Cmd)

  /** _renew_tick up to the command, lines 626-632. */
  datatype CheckPc = ChkClosed | ChkStop | ChkConn | ChkTok(c: nat)

  /** The renew command, line 635. */
  datatype RenewPc = RenewSend(c: nat, tok: Token) | RenewRecv(c: nat, tok: Token)

  /** _handle_renew_failure, lines 644-647. */
  datatype FailPc = FailChk(c: nat) | FailConn(c: nat) | FailTok(c: nat) | FailLease(c: nat) | FailClose(c: nat)

  /** A renew tick while it holds the I/O lock, lines 625-628. */
  datatype TickPc =
    | Check(kp: CheckPc)
    | Renewing(np: RenewPc)
    | Failing(fp: FailPc)
    | Unlock(remaining: Option<int>)

  /** _update_lease, lines 660-662, once the remaining time is known to be positive. */
  datatype UpdatePc = UpdTok | UpdClosed | UpdWrite

  /** Program counter of a renew worker, lines 613-662. */
  datatype WorkerPc =
    | WNew | WInit | WWait | WLock
    | Tick(tp: TickPc)
    | WAfter(rem: int) | Updating(up: UpdatePc, rem: int)
    | WDone

  datatype WorkerState = WorkerState(ev: nat, pc: WorkerPc)

  /** A connection: transport flags, the holder of its command mutex, its trace, and the phase of that trace. */
  datatype Conn = Conn(open: bool, shut: bool, busy: Option<Who>, trace: seq<Event>, phase: Phase)

  /**
   The fields of the instance, plus everything it ever created. Stop events are numbered by
   attempt; raised holds those that have been set.
   */
  datatype State = State(
    conn: Option<nat>, token: Option<Token>, lease: int, closed: bool,
    thread: Option<nat>, io: Option<Who>,
    attempt: nat, raised: set<nat>, conns: seq<Conn>, workers: seq<WorkerState>,
    user: UserPc, last: Ret)

  /** A freshly constructed instance. */
  const INITIAL: State := State(None, None, 0, false, None, None, 0, {}, [], [], Idle, NoRet)

  /** What a worker step chooses. */
  datatype WorkerChoice =
    | Go
    | Woken | Elapsed                  // outcome of event.wait(interval)
    | SendOk | SendFail(closes: bool)    // command before the reply
    | Heard(r: Reply) | IoFail           // command after the frame was written

  datatype Label =
    | Call(api: Api)
    | UGo
    | UJoined | UGaveUp
    | UDialOk | UDialFail | UNoAuth
    | USendOk | USendFail(closes: bool) | UHeard(r: Reply) | UIoFail
    | WorkerStep(i: nat, choice: WorkerChoice)

  // ----- what each program counter refers to

  function RelConnOf(p: RelPc): Option<nat> {
    match p
    case RelTok(c) => Some(c) case RelSend(c, _) => Some(c) case RelRecv(c, _) => Some(c)
    case _ => None
  }

  function ShutConnOf(p: ShutPc): Option<nat> {
    if p.ShutRead? then None else Some(p.c)
  }

  function OpenConnOf(p: OpenPc): Option<nat> {
    if p.Dial? || p.Require? then None else Some(p.c)
  }

  /** The connection in the hands of the user operation. */
  function UserConn(u: UserPc): Option<nat> {
    match u
    case Rel(p) => RelConnOf(p)
    case Shut(p, _) => ShutConnOf(p)
    case Opening(p, _) => OpenConnOf(p)
    case Invoke(p, _) => Some(p.c)
    case _ => None
  }

  function UserThread(u: UserPc): Option<nat> {
    match u
    case Stop(p, _) => if p.StopJoin? then Some(p.t) else None
    case Clear(p, _) => if p.ClrJoin? then Some(p.t) else None
    case Grant(p, _) => if p.Started? then Some(p.t) else None
    case _ => None
  }

  /** The connection in the hands of a renew tick. */
  function TickConn(p: TickPc): Option<nat> {
    match p
    case Check(q) => if q.ChkTok? then Some(q.c) else None
    case Renewing(q) => Some(q.c)
    case Failing(q) => Some(q.c)
    case Unlock(_) => None
  }

  // ----- lookups; a number that names nothing stands for something long closed, ended or set

  function ConnAt(s: State, c: nat): Conn {
    if c < |s.conns| then s.conns[c] else Conn(false, true, None, [], Over)
  }

  function PcAt(s: State, i: nat): WorkerPc {
    if i < |s.workers| then s.workers[i].pc else WDone
  }

  function SetConn(s: State, c: nat, k: Conn): State {
    if c < |s.conns| then s.(conns := s.conns[c := k]) else s
  }

  function SetPc(s: State, i: nat, pc: WorkerPc): State {
    if i < |s.workers| then s.(workers := s.workers[i := s.workers[i].(pc := pc)]) else s
  }

  // ----- transport actions on one connection

  function Emit(k: Conn, e: Event): Conn {
    k.(trace := k.trace + [e], phase := Advance(k.phase, e))
  }

  /** sendall returned: the whole frame is on the wire and the caller holds the command mutex. */
  function Write(s: State, c: nat, who: Who, f: Frame): State {
    SetConn(s, c, Emit(ConnAt(s, c), Sent(f)).(busy := Some(who)))
  }

  /** readline returned the reply; the mutex is released. */
  function Read(s: State, c: nat, r: Reply): State {
    SetConn(s, c, Emit(ConnAt(s, c), Got(r)).(busy := None))
  }

  /** command failed after taking the mutex: it closes the transport and releases the mutex. */
  function Abort(s: State, c: nat): State {
    SetConn(s, c, ConnAt(s, c).(open := false, busy := None))
  }

  function CloseConn(s: State, c: nat): State {
    SetConn(s, c, ConnAt(s, c).(open := false))
  }

  predicate Writable(s: State, c: nat) {
    ConnAt(s, c).open && !ConnAt(s, c).shut && ConnAt(s, c).busy.None?
  }

  // ----- the user operation

  function Finish(s: State, ret: Ret): State { s.(user := Idle, last := ret) }

  /** Where _stop_renew returns to. */
  function AfterStop(k: Kind): UserPc {
    match k case ForReset(op) => Cls(ClsCheck, Rearm(op)) case ForRelease => Rel(RelLock)
  }

  /** Where _close_unlocked returns to. */
  function AfterClose(s: State, th: Then): State {
    match th
    case Rearm(op) => s.(user := Rearming(RearmFlag, op))
    case Failed(timedOut) => Finish(s, if timedOut then RetFalse else RetRaised)
    case Released(ok) => Finish(s, if ok then RetTrue else RetFalse)
    case Plain => Finish(s, RetUnit)
  }

  function Begin(api: Api): UserPc {
    match api
    case ApiAcquire => Stop(StopCheck, ForReset(OpAcquire))
    case ApiEnqueue => Stop(StopCheck, ForReset(OpEnqueue))
    case ApiWait => WaitTok
    case ApiRelease => Stop(StopCheck, ForRelease)
    case ApiClose => Cls(ClsCheck, Plain)
  }

  function StopGo(s: State, p: StopPc, k: Kind): State
    requires !p.StopJoin?
  {
    match p
    case StopCheck => s.(user := if s.thread.None? then AfterStop(k) else Stop(StopSet, k))
    case StopSet =>
      s.(raised := s.raised + {s.attempt},
         user := if s.thread.Some? then Stop(StopJoin(s.thread.value), k) else Stop(StopClear, k))
    case StopClear => s.(thread := None, user := AfterStop(k))
  }

  function RelGo(s: State, p: RelPc): State
    requires !p.RelSend? && !p.RelRecv?
  {
    match p
    case RelLock => s.(io := Some(User), user := Rel(RelConn))
    case RelConn => s.(user := Rel(if s.conn.None? then RelUnlock(false) else RelTok(s.conn.value)))
    case RelTok(c) => s.(user := Rel(if s.token.None? then RelUnlock(false) else RelSend(c, s.token.value)))
    case RelUnlock(ok) => s.(io := None, user := Cls(ClsCheck, Released(ok)))
  }

  function ClsGo(s: State, p: ClosePc, th: Then): State {
    match p
    case ClsCheck => if s.closed then AfterClose(s, th) else s.(user := Cls(ClsFlag, th))
    case ClsFlag => s.(closed := true, user := Cls(ClsSet, th))
    case ClsSet => s.(raised := s.raised + {s.attempt}, user := Shut(ShutRead, th))
  }

  function ShutGo(s: State, p: ShutPc, th: Then): State {
    match p
    case ShutRead => s.(user := if s.conn.None? then Clear(ClrRead, th) else Shut(ShutDown(s.conn.value), th))
    case ShutDown(c) => SetConn(s, c, ConnAt(s, c).(shut := true)).(user := Shut(ShutLock(c), th))
    case ShutLock(c) => s.(io := Some(User), user := Shut(ShutClose(c), th))
    case ShutClose(c) => CloseConn(s, c).(user := Shut(ShutUnlock(c), th))
    case ShutUnlock(c) => s.(io := None, user := Shut(ShutDetach(c), th))
    case ShutDetach(_) => s.(conn := None, user := Clear(ClrRead, th))
  }

  function ClearGo(s: State, p: ClearPc, th: Then): State
    requires !p.ClrJoin?
  {
    match p
    case ClrRead => s.(user := Clear(if s.thread.None? then ClrTok else ClrJoin(s.thread.value), th))
    case ClrThread => s.(thread := None, user := Clear(ClrTok, th))
    case ClrTok => s.(token := None, user := Clear(ClrLease, th))
    case ClrLease => AfterClose(s.(lease := 0), th)
  }

  function RearmGo(s: State, p: RearmPc, op: Op): State {
    match p
    case RearmFlag => s.(closed := false, user := Rearming(RearmEvent, op))
    case RearmEvent => s.(attempt := s.attempt + 1, user := Opening(Dial, op))
  }

  function OpenGo(s: State, p: OpenPc, op: Op): State
    requires !p.Dial? && !p.AuthSend? && !p.AuthRecv?
  {
    match p
    case AuthClose(c) => Finish(CloseConn(s, c), RetRaised)
    case Adopt(c) => s.(conn := Some(c), user := Opening(Require, op))
    case Require =>
      s.(user := if s.conn.None? then Cls(ClsCheck, Failed(false)) else Invoke(CmdSend(s.conn.value), CmdOf(op)))
  }

  function GrantGo(s: State, p: GrantPc, cmd: Cmd): State {
    match p
    case PutTok(t, l) => s.(token := Some(t), user := Grant(PutLease(l), cmd))
    case PutLease(l) => s.(lease := l, user := Grant(Start, cmd))
    case Start =>
      s.(workers := s.workers + [WorkerState(s.attempt, WNew)], thread := Some(|s.workers|),
         user := Grant(Started(|s.workers|), cmd))
    case Started(t) => Finish(SetPc(s, t, WInit), GrantRet(cmd))
  }

  /** Where an attempt's command goes with its decoded reply; Idle means it returned "queued". */
  function AfterCommand(cmd: Cmd, r: Reply): UserPc {
    if r.Granted? then Grant(PutTok(r.token, r.lease), cmd)
    else if r.Queued? && cmd.CmdEnqueue? then Idle
    else if r.TimedOut? && !cmd.CmdEnqueue? then Cls(ClsCheck, Failed(true))
    else Cls(ClsCheck, Failed(false))
  }

  /** The program counters whose next step leaves the user no choice. */
  predicate Deterministic(u: UserPc) {
    match u
    case Idle => false
    case Stop(p, _) => !p.StopJoin?
    case Rel(p) => !p.RelSend? && !p.RelRecv?
    case Clear(p, _) => !p.ClrJoin?
    case Opening(p, _) => !p.Dial? && !p.AuthSend? && !p.AuthRecv?
    case Invoke(_, _) => false
    case _ => true
  }

  function UserGo(s: State): State
    requires Deterministic(s.user)
  {
    match s.user
    case Stop(p, k) => StopGo(s, p, k)
    case Rel(p) => RelGo(s, p)
    case Cls(p, th) => ClsGo(s, p, th)
    case Shut(p, th) => ShutGo(s, p, th)
    case Clear(p, th) => ClearGo(s, p, th)
    case Rearming(p, op) => RearmGo(s, p, op)
    case Opening(p, op) => OpenGo(s, p, op)
    case WaitTok => if s.token.Some? then Finish(s, RetTrue) else s.(user := WaitConn)
    case WaitConn => if s.conn.None? then Finish(s, RetRaised) else s.(user := Invoke(CmdSend(s.conn.value), CmdWait))
    case Grant(p, cmd) => GrantGo(s, p, cmd)
  }

  predicate AtJoin(u: UserPc) { (u.Stop? && u.sp.StopJoin?) || (u.Clear? && u.lp.ClrJoin?) }

  function JoinedThread(u: UserPc): nat
    requires AtJoin(u)
  {
    if u.Stop? then u.sp.t else u.lp.t
  }

  predicate AtSend(u: UserPc) {
    (u.Rel? && u.rp.RelSend?) || (u.Opening? && u.xp.AuthSend?) || (u.Invoke? && u.ip.CmdSend?)
  }

  predicate AtRecv(u: UserPc) {
    (u.Rel? && u.rp.RelRecv?) || (u.Opening? && u.xp.AuthRecv?) || (u.Invoke? && u.ip.CmdRecv?)
  }

  /** The connection of a command in progress. */
  function CommandConn(u: UserPc): nat
    requires AtSend(u) || AtRecv(u)
  {
    if u.Rel? then u.rp.c else if u.Opening? then u.xp.c else u.ip.c
  }

  /** The frame of the command about to be sent. */
  function UserFrame(u: UserPc): Frame
    requires AtSend(u)
  {
    match u
    case Rel(p) => Release(p.tok)
    case Opening(_, _) => Auth
    case Invoke(_, cmd) => CmdFrame(cmd)
  }

  function AfterSend(u: UserPc): UserPc
    requires AtSend(u)
  {
    match u
    case Rel(p) => Rel(RelRecv(p.c, p.tok))
    case Opening(p, op) => Opening(AuthRecv(p.c), op)
    case Invoke(p, cmd) => Invoke(CmdRecv(p.c), cmd)
  }

  function UserWrite(s: State): State
    requires AtSend(s.user)
  {
    Write(s, CommandConn(s.user), User, UserFrame(s.user)).(user := AfterSend(s.user))
  }

  /** Where the user goes with the reply it has read and decoded. */
  function AfterHeard(u: UserPc, r: Reply): UserPc
    requires AtRecv(u)
  {
    match u
    case Rel(p) => Rel(RelUnlock(r == Done))
    case Opening(p, op) => Opening(if r == Done then Adopt(p.c) else AuthClose(p.c), op)
    case Invoke(p, cmd) => AfterCommand(cmd, r)
  }

  function UserHeard(s: State, r: Reply): State
    requires AtRecv(s.user)
  {
    var u := AfterHeard(s.user, r);
    Read(s, CommandConn(s.user), r).(user := u, last := if u.Idle? then RetQueued else s.last)
  }

  /** Where the user goes when its command raises. */
  function UserFailPc(u: UserPc): UserPc
    requires AtSend(u) || AtRecv(u)
  {
    match u
    case Rel(_) => Rel(RelUnlock(false))
    case Opening(p, op) => Opening(AuthClose(p.c), op)
    case Invoke(_, _) => Cls(ClsCheck, Failed(false))
  }

  predicate NeedsIoLock(u: UserPc) { (u.Rel? && u.rp.RelLock?) || (u.Shut? && u.hp.ShutLock?) }

  predicate UserEnabled(s: State, l: Label)
    requires !l.WorkerStep?
  {
    var u := s.user;
    match l
    case Call(_) => u.Idle?
    case UGo => Deterministic(u) && (NeedsIoLock(u) ==> s.io.None?)
    case UJoined => AtJoin(u) && PcAt(s, JoinedThread(u)) == WDone
    case UGaveUp => AtJoin(u)
    case UDialOk => u.Opening? && u.xp.Dial?
    case UDialFail => u.Opening? && u.xp.Dial?
    case UNoAuth => u.Opening? && u.xp.AuthSend?
    case USendOk => AtSend(u) && Writable(s, CommandConn(u))
    case USendFail(closes) => AtSend(u) && (closes ==> ConnAt(s, CommandConn(u)).busy.None?)
    case UHeard(r) => AtRecv(u) && ConnAt(s, CommandConn(u)).open && ReplyInBounds(r)
    case UIoFail => AtRecv(u)
  }

  /** The join returned, because the thread ended or because five seconds passed. */
  function LeaveJoin(s: State): State
    requires AtJoin(s.user)
  {
    s.(user := if s.user.Stop? then Stop(StopClear, s.user.k) else Clear(ClrThread, s.user.th))
  }

  function UserNext(s: State, l: Label): State
    requires !l.WorkerStep? && UserEnabled(s, l)
  {
    match l
    case Call(api) => s.(user := Begin(api))
    case UGo => UserGo(s)
    case UJoined => LeaveJoin(s)
    case UGaveUp => LeaveJoin(s)
    case UDialOk =>
      s.(conns := s.conns + [Conn(true, false, None, [], Fresh)], user := Opening(AuthSend(|s.conns|), s.user.op))
    case UDialFail => Finish(s, RetRaised)
    case UNoAuth => s.(user := Opening(Adopt(s.user.xp.c), s.user.op))
    case USendOk => UserWrite(s)
    case USendFail(closes) => (if closes then Abort(s, CommandConn(s.user)) else s).(user := UserFailPc(s.user))
    case UHeard(r) => UserHeard(s, r)
    case UIoFail => Abort(s, CommandConn(s.user)).(user := UserFailPc(s.user))
  }

  // ----- the renew worker: what a step does to the instance, and where the worker goes

  predicate TickEnabled(s: State, p: TickPc, ch: WorkerChoice) {
    match p
    case Renewing(RenewSend(c, _)) => (ch.SendOk? && Writable(s, c)) || (ch.SendFail? && (ch.closes ==> ConnAt(s, c).busy.None?))
    case Renewing(RenewRecv(c, _)) => (ch.Heard? && ConnAt(s, c).open && ReplyInBounds(ch.r)) || ch.IoFail?
    case _ => ch.Go?
  }

  /** Whether a worker at pc can take the choice ch; stopped says whether its stop event is set. */
  predicate WorkerEnabled(s: State, pc: WorkerPc, stopped: bool, ch: WorkerChoice) {
    match pc
    case WNew => false
    case WDone => false
    case WWait => ch.Elapsed? || (ch.Woken? && stopped)
    case WLock => ch.Go? && s.io.None?
    case Tick(p) => TickEnabled(s, p, ch)
    case _ => ch.Go?
  }

  function CheckGoes(s: State, p: CheckPc, stopped: bool): TickPc {
    match p
    case ChkClosed => if s.closed then Unlock(None) else Check(ChkStop)
    case ChkStop => if stopped then Unlock(None) else Check(ChkConn)
    case ChkConn => if s.conn.None? then Unlock(None) else Check(ChkTok(s.conn.value))
    case ChkTok(c) => if s.token.None? then Unlock(None) else Renewing(RenewSend(c, s.token.value))
  }

  function RenewEffect(s: State, i: nat, p: RenewPc, ch: WorkerChoice): State {
    match ch
    case SendOk => Write(s, p.c, Worker(i), Renew(p.tok))
    case SendFail(closes) => if closes then Abort(s, p.c) else s
    case Heard(r) => Read(s, p.c, r)
    case _ => Abort(s, p.c)
  }

  function RenewGoes(p: RenewPc, ch: WorkerChoice): TickPc {
    match ch
    case SendOk => Renewing(RenewRecv(p.c, p.tok))
    case Heard(Renewed(remaining)) => Unlock(Some(remaining))
    case _ => Failing(FailChk(p.c))
  }

  function FailEffect(s: State, p: FailPc): State {
    match p
    case FailChk(_) => s
    case FailConn(_) => s.(conn := None)
    case FailTok(_) => s.(token := None)
    case FailLease(_) => s.(lease := 0)
    case FailClose(c) => CloseConn(s, c)
  }

  function FailGoes(s: State, p: FailPc): TickPc {
    match p
    case FailChk(c) => if s.conn == Some(c) then Failing(FailConn(c)) else Unlock(None)
    case FailConn(c) => Failing(FailTok(c))
    case FailTok(c) => Failing(FailLease(c))
    case FailLease(c) => Failing(FailClose(c))
    case FailClose(_) => Unlock(None)
  }

  function TickEffect(s: State, i: nat, p: TickPc, ch: WorkerChoice): State {
    match p
    case Check(_) => s
    case Renewing(q) => RenewEffect(s, i, q, ch)
    case Failing(q) => FailEffect(s, q)
    case Unlock(_) => s.(io := None)
  }

  function TickGoes(s: State, p: TickPc, stopped: bool, ch: WorkerChoice): WorkerPc {
    match p
    case Check(q) => Tick(CheckGoes(s, q, stopped))
    case Renewing(q) => Tick(RenewGoes(q, ch))
    case Failing(q) => Tick(FailGoes(s, q))
    case Unlock(r) => if r.None? then WDone else WAfter(r.value)
  }

  function UpdateGoes(s: State, p: UpdatePc, rem: int): WorkerPc {
    match p
    case UpdTok => if s.token.Some? then Updating(UpdClosed, rem) else WWait
    case UpdClosed => if s.closed then WWait else Updating(UpdWrite, rem)
    case UpdWrite => WWait
  }

  function WorkerEffect(s: State, i: nat, pc: WorkerPc, ch: WorkerChoice): State {
    match pc
    case WLock => s.(io := Some(Worker(i)))
    case Tick(p) => TickEffect(s, i, p, ch)
    case Updating(UpdWrite, rem) => s.(lease := rem)
    case _ => s
  }

  function WorkerGoes(s: State, pc: WorkerPc, stopped: bool, ch: WorkerChoice): WorkerPc {
    match pc
    case WInit => WWait
    case WWait => if ch.Woken? then WDone else WLock
    case WLock => Tick(Check(ChkClosed))
    case Tick(p) => TickGoes(s, p, stopped, ch)
    case WAfter(rem) => if stopped then WDone else if rem > 0 then Updating(UpdTok, rem) else WWait
    case Updating(p, rem) => UpdateGoes(s, p, rem)
    case WNew => WNew
    case WDone => WDone
  }

  function WorkerNext(s: State, i: nat, ch: WorkerChoice): State
    requires i < |s.workers|
  {
    var w := s.workers[i];
    SetPc(WorkerEffect(s, i, w.pc, ch), i, WorkerGoes(s, w.pc, w.ev in s.raised, ch))
  }

  // ----- steps and runs

  predicate Enabled(s: State, l: Label) {
    if l.WorkerStep? then l.i < |s.workers| && WorkerEnabled(s, s.workers[l.i].pc, s.workers[l.i].ev in s.raised, l.choice) else UserEnabled(s, l)
  }

  function Next(s: State, l: Label): State
    requires Enabled(s, l)
  {
    if l.WorkerStep? then WorkerNext(s, l.i, l.choice) else UserNext(s, l)
  }

  /** The step, or nothing if it cannot be taken. */
  function Step(s: State, l: Label): State { if Enabled(s, l) then Next(s, l) else s }
}
