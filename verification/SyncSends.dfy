/** What the calls and the renew worker of the synchronous client send, and that they go on to send it: in every run. */
module SyncSends {
  import opened Basics
  import opened Session
  import opened Lifecycle
  import opened SyncMachine
  import opened SyncRuns
  import opened Runs
  import opened SyncInvariant

  // ----- whoever waits for a reply has sent its frame last

  predicate LastSent(k: Conn, f: Frame) { k.trace != [] && k.trace[|k.trace| - 1] == Sent(f) }

  /** The frame that the user operation waits to have answered. */
  function AskedFrame(u: UserPc): Frame
    requires AtRecv(u)
  {
    match u
    case Rel(p) => Release(p.tok)
    case Opening(_, _) => Auth
    case Invoke(_, cmd) => CmdFrame(cmd)
  }

  predicate UserAwaits(s: State) {
    AtRecv(s.user) ==>
      var c := CommandConn(s.user); c < |s.conns| && s.conns[c].busy == Some(User) && LastSent(s.conns[c], AskedFrame(s.user))
  }

  predicate WorkerAwaits(s: State, i: nat) {
    AwaitsRenew(PcAt(s, i)) ==>
      var p := PcAt(s, i).tp.np; p.c < |s.conns| && s.conns[p.c].busy == Some(Worker(i)) && LastSent(s.conns[p.c], Renew(p.tok))
  }

  ghost predicate Awaiting(s: State) { UserAwaits(s) && forall i: nat :: WorkerAwaits(s, i) }

  /** Only by sending comes the user to wait for a reply. */
  lemma OnlyBySending(s: State, l: Label)
    requires !l.WorkerStep? && UserEnabled(s, l) && !l.USendOk?
    ensures !AtRecv(UserNext(s, l).user)
  {
    if l.UGo? { GoAsksNothing(s); }
  }

  lemma GoAsksNothing(s: State)
    requires Deterministic(s.user)
    ensures !AtRecv(UserGo(s).user)
  {
  }

  lemma SendAwaits(s: State)
    requires AtSend(s.user) && Writable(s, CommandConn(s.user))
    ensures UserAwaits(UserWrite(s))
  {
  }

  lemma UserKeepsUser(s: State, l: Label)
    requires UserAwaits(s) && !l.WorkerStep? && UserEnabled(s, l)
    ensures UserAwaits(UserNext(s, l))
  {
    if l.USendOk? { SendAwaits(s); } else { OnlyBySending(s, l); }
  }

  lemma UserKeepsWorker(s: State, l: Label, i: nat)
    requires UserAwaits(s) && WorkerAwaits(s, i) && !l.WorkerStep? && UserEnabled(s, l)
    ensures WorkerAwaits(UserNext(s, l), i)
  {
    UserMovesNone(s, l, i);
    if AwaitsRenew(PcAt(s, i)) { UserTouches(s, l, PcAt(s, i).tp.np.c); }
  }

  /** What a user step does to a connection on which it has no command, or on which somebody else has one. */
  lemma UserTouches(s: State, l: Label, c: nat)
    requires !l.WorkerStep? && UserEnabled(s, l) && c < |s.conns| && s.conns[c].busy.Some?
    requires !(AtRecv(s.user) && CommandConn(s.user) == c)
    ensures SameCommand(s, UserNext(s, l), c)
  {
    if l.UGo? { GoTouches(s, c); }
  }

  predicate SameCommand(s: State, t: State, c: nat) {
    ConnAt(t, c).busy == ConnAt(s, c).busy && ConnAt(t, c).trace == ConnAt(s, c).trace && |s.conns| <= |t.conns|
  }

  lemma GoTouches(s: State, c: nat)
    requires Deterministic(s.user) && c < |s.conns|
    ensures SameCommand(s, UserGo(s), c)
  {
  }

  /** A user step brings no worker to its command. */
  lemma UserMovesNone(s: State, l: Label, i: nat)
    requires !l.WorkerStep? && UserEnabled(s, l)
    ensures AwaitsRenew(PcAt(UserNext(s, l), i)) ==> PcAt(UserNext(s, l), i) == PcAt(s, i)
  {
  }

  lemma WorkerKeepsUser(s: State, i: nat, ch: WorkerChoice)
    requires UserAwaits(s) && WorkerAwaits(s, i) && Enabled(s, WorkerStep(i, ch))
    ensures UserAwaits(WorkerNext(s, i, ch))
  {
  }

  lemma WorkerKeepsOther(s: State, i: nat, ch: WorkerChoice, j: nat)
    requires WorkerAwaits(s, i) && WorkerAwaits(s, j) && j != i && Enabled(s, WorkerStep(i, ch))
    ensures WorkerAwaits(WorkerNext(s, i, ch), j)
  {
  }

  lemma WorkerKeepsOwn(s: State, i: nat, ch: WorkerChoice)
    requires WorkerAwaits(s, i) && Enabled(s, WorkerStep(i, ch))
    ensures WorkerAwaits(WorkerNext(s, i, ch), i)
  {
  }

  lemma AwaitingKept(s: State, l: Label)
    requires Awaiting(s) && Enabled(s, l)
    ensures Awaiting(Next(s, l))
  {
    if l.WorkerStep? {
      WorkerKeepsUser(s, l.i, l.choice);
      forall j: nat ensures WorkerAwaits(Next(s, l), j) {
        if j == l.i { WorkerKeepsOwn(s, l.i, l.choice); } else { WorkerKeepsOther(s, l.i, l.choice, j); }
      }
    } else {
      UserKeepsUser(s, l);
      forall j: nat ensures WorkerAwaits(Next(s, l), j) { UserKeepsWorker(s, l, j); }
    }
  }

  lemma ReachableAwaiting(s: State)
    requires Reachable(s, NOTHING)
    ensures Awaiting(s)
  {
    forall t, l | Awaiting(t) && Enabled(t, l) && Avoids(t, l, NOTHING) ensures Awaiting(Next(t, l)) { AwaitingKept(t, l); }
    ReachableKeeps(s, NOTHING, t => Awaiting(t));
  }

  /** A reply that a user operation reads directly follows the frame that this operation sent on the same connection. */
  lemma ReplyToOwnFrame(s: State, r: Reply)
    requires Reachable(s, NOTHING) && Enabled(s, UHeard(r))
    ensures var c := CommandConn(s.user);
      c < |s.conns| && LastSent(s.conns[c], AskedFrame(s.user)) && Next(s, UHeard(r)).conns[c].trace == s.conns[c].trace + [Got(r)]
  {
    ReachableAwaiting(s);
  }

  predicate Reported(pc: WorkerPc) { pc.Tick? && pc.tp.Unlock? && pc.tp.remaining.Some? }

  /** A tick that comes out with seconds has sent a renew and just read these seconds as its answer. */
  lemma ReportIsAnswer(s: State, i: nat, ch: WorkerChoice)
    requires Reachable(s, NOTHING) && Enabled(s, WorkerStep(i, ch))
    requires !Reported(PcAt(s, i)) && Reported(PcAt(WorkerNext(s, i, ch), i))
    ensures AwaitsRenew(PcAt(s, i)) && ch == Heard(Renewed(PcAt(WorkerNext(s, i, ch), i).tp.remaining.value))
    ensures var p := PcAt(s, i).tp.np;
      p.c < |s.conns| && LastSent(s.conns[p.c], Renew(p.tok)) && WorkerNext(s, i, ch).conns[p.c].trace == s.conns[p.c].trace + [Got(ch.r)]
  {
    ReachableAwaiting(s);
    assert WorkerAwaits(s, i);
  }

  // ----- going on to the send

  /** A release that gives up has found no connection or no token, or its frame failed or was not confirmed. */
  lemma ReleaseGivesUp(s: State, l: Label)
    requires Enabled(s, l) && s.user.Rel? && s.user != Rel(RelUnlock(false)) && Next(s, l).user == Rel(RelUnlock(false))
    ensures (s.user.rp.RelConn? && s.conn.None?) || (s.user.rp.RelTok? && s.token.None?)
      || l.USendFail? || l.UIoFail? || (l.UHeard? && l.r != Done)
  {
    if l.WorkerStep? { EffectKeeps(s, l.i, s.workers[l.i].pc, l.choice); }
  }

  /** A release that holds the I/O lock and finds a connection and a token sends the release of that token on it. */
  lemma ReleaseGoesOn(s: State, c: nat, t: Token)
    requires s.user == Rel(RelConn) && s.conn == Some(c) && s.token == Some(t) && c < |s.conns| && Writable(s, c)
    ensures After(s, [UGo, UGo, USendOk]) == s.(user := Rel(RelRecv(c, t)),
      conns := s.conns[c := s.conns[c].(trace := s.conns[c].trace + [Sent(Release(t))], phase := Advance(s.conns[c].phase, Sent(Release(t))),
                                       busy := Some(User))])
  {
    EndThree(Step, s, UGo, UGo, USendOk);
  }

  /**
   A tick gives up without a command exactly if it finds the instance closed, its event set, no connection
   or no token, when it looks.
   */
  lemma TickGivesUp(s: State, i: nat, ch: WorkerChoice)
    requires Enabled(s, WorkerStep(i, ch)) && PcAt(s, i).Tick? && PcAt(s, i).tp.Check?
    ensures PcAt(WorkerNext(s, i, ch), i).Tick?
    ensures PcAt(WorkerNext(s, i, ch), i).tp.Unlock? <==>
      match PcAt(s, i).tp.kp
      case ChkClosed => s.closed
      case ChkStop => s.workers[i].ev in s.raised
      case ChkConn => s.conn.None?
      case ChkTok(_) => s.token.None?
    ensures PcAt(WorkerNext(s, i, ch), i).tp.Unlock? ==> PcAt(WorkerNext(s, i, ch), i).tp.remaining.None?
  {
  }

  /** A tick that finds the instance open, its event unset, a connection and a token comes to the renew of that token on it. */
  lemma TickGoesOn(s: State, i: nat, c: nat, t: Token)
    requires i < |s.workers| && s.workers[i].pc == Tick(Check(ChkStop)) && s.workers[i].ev !in s.raised
    requires s.conn == Some(c) && s.token == Some(t)
    ensures var w := WorkerStep(i, Go);
      After(s, [w, w, w]) == s.(workers := s.workers[i := s.workers[i].(pc := Tick(Renewing(RenewSend(c, t))))])
  {
    EndThree(Step, s, WorkerStep(i, Go), WorkerStep(i, Go), WorkerStep(i, Go));
  }

  /** Its frame is the renew of that token. */
  lemma RenewIsSent(s: State, i: nat, c: nat, t: Token)
    requires i < |s.workers| && s.workers[i].pc == Tick(Renewing(RenewSend(c, t))) && c < |s.conns| && Writable(s, c)
    ensures Enabled(s, WorkerStep(i, SendOk))
    ensures WorkerNext(s, i, SendOk).conns[c].trace == s.conns[c].trace + [Sent(Renew(t))]
    ensures PcAt(WorkerNext(s, i, SendOk), i) == Tick(Renewing(RenewRecv(c, t)))
  {
  }

  /** A worker ends only once its event is set, or after a tick that reported nothing. */
  lemma WorkerEndsOnly(s: State, i: nat, ch: WorkerChoice)
    requires Enabled(s, WorkerStep(i, ch)) && PcAt(WorkerNext(s, i, ch), i).WDone?
    ensures s.workers[i].ev in s.raised || s.workers[i].pc == Tick(Unlock(None))
  {
  }

  /** The turns of a worker: it sleeps, ticks, stores a positive report, and sleeps again. */
  lemma WorkerTurns(s: State, i: nat)
    requires i < |s.workers| && s.workers[i].ev !in s.raised
    ensures s.workers[i].pc.WInit? ==> PcAt(WorkerNext(s, i, Go), i).WWait?
    ensures s.workers[i].pc.WWait? ==> PcAt(WorkerNext(s, i, Elapsed), i).WLock? && !Enabled(s, WorkerStep(i, Woken))
    ensures s.workers[i].pc.WLock? && s.io.None? ==>
      PcAt(WorkerNext(s, i, Go), i).Tick? && PcAt(WorkerNext(s, i, Go), i).tp.Check? && WorkerNext(s, i, Go).io == Some(Worker(i))
    ensures s.workers[i].pc.WAfter? ==>
      PcAt(WorkerNext(s, i, Go), i) == if s.workers[i].pc.rem > 0 then Updating(UpdTok, s.workers[i].pc.rem) else WWait
    ensures s.workers[i].pc.Updating? && s.token.Some? && !s.closed && !s.workers[i].pc.up.UpdWrite? ==>
      PcAt(WorkerNext(s, i, Go), i).Updating? && PcAt(WorkerNext(s, i, Go), i).rem == s.workers[i].pc.rem
    ensures s.workers[i].pc.Updating? && s.workers[i].pc.up.UpdWrite? ==>
      PcAt(WorkerNext(s, i, Go), i).WWait? && WorkerNext(s, i, Go).lease == s.workers[i].pc.rem
  {
  }

  /** Everything may become of a command: before its reply it may fail at any time, and the reply may be any decoded line. */
  lemma CommandOutcomes(s: State, r: Reply)
    ensures AtSend(s.user) ==> Enabled(s, USendFail(false)) && (Enabled(s, USendOk) <==> Writable(s, CommandConn(s.user)))
    ensures AtRecv(s.user) ==> Enabled(s, UIoFail) && (Enabled(s, UHeard(r)) <==> ConnAt(s, CommandConn(s.user)).open && ReplyInBounds(r))
    ensures AtJoin(s.user) ==> Enabled(s, UGaveUp) && (Enabled(s, UJoined) <==> PcAt(s, JoinedThread(s.user)).WDone?)
  {
  }

  lemma RenewOutcomes(s: State, i: nat, r: Reply)
    requires i < |s.workers| && s.workers[i].pc.Tick? && s.workers[i].pc.tp.Renewing?
    ensures var p := s.workers[i].pc.tp.np;
      && (p.RenewSend? ==> Enabled(s, WorkerStep(i, SendFail(false))) && (Enabled(s, WorkerStep(i, SendOk)) <==> Writable(s, p.c)))
      && (p.RenewRecv? ==> Enabled(s, WorkerStep(i, IoFail)) && (Enabled(s, WorkerStep(i, Heard(r))) <==> ConnAt(s, p.c).open && ReplyInBounds(r)))
  {
  }

  // ----- each call sends its own frames

  predicate OfAttempt(u: UserPc, op: Op) {
    match u
    case Idle => true
    case Stop(_, k) => k == ForReset(op)
    case Cls(_, th) => th == Rearm(op) || th.Failed?
    case Shut(_, th) => th == Rearm(op) || th.Failed?
    case Clear(_, th) => th == Rearm(op) || th.Failed?
    case Rearming(_, o) => o == op
    case Opening(_, o) => o == op
    case Invoke(_, cmd) => cmd == if op == OpAcquire then CmdAcquire else CmdEnqueue
    case Grant(_, cmd) => cmd == if op == OpAcquire then CmdAcquire else CmdEnqueue
    case _ => false
  }

  /** The places of a call. */
  predicate OfCall(u: UserPc, api: Api) {
    match api
    case ApiAcquire => OfAttempt(u, OpAcquire)
    case ApiEnqueue => OfAttempt(u, OpEnqueue)
    case ApiWait =>
      || u.Idle? || u.WaitTok? || u.WaitConn? || (u.Invoke? && u.cmd == CmdWait) || (u.Grant? && u.cmd == CmdWait)
      || ((u.Cls? || u.Shut? || u.Clear?) && u.th.Failed?)
    case ApiRelease => u.Idle? || u.Rel? || (u.Stop? && u.k == ForRelease) || ((u.Cls? || u.Shut? || u.Clear?) && u.th.Released?)
    case ApiClose => u.Idle? || ((u.Cls? || u.Shut? || u.Clear?) && u.th == Plain)
  }

  lemma CloseOfCall(s: State, api: Api)
    requires OfCall(s.user, api) && Deterministic(s.user) && (s.user.Cls? || s.user.Shut? || s.user.Clear?)
    ensures OfCall(UserGo(s).user, api)
  {
  }

  lemma GoOfCall(s: State, api: Api)
    requires OfCall(s.user, api) && Deterministic(s.user)
    ensures OfCall(UserGo(s).user, api)
  {
    if s.user.Cls? || s.user.Shut? || s.user.Clear? { CloseOfCall(s, api); }
  }

  lemma StepOfCall(s: State, l: Label, api: Api)
    requires OfCall(s.user, api) && Enabled(s, l) && !l.Call?
    ensures OfCall(Next(s, l).user, api)
  {
    if l.WorkerStep? {
      EffectKeeps(s, l.i, s.workers[l.i].pc, l.choice);
    } else if l.UGo? {
      GoOfCall(s, api);
    }
  }

  lemma {:induction false} RunOfCall(s: State, labels: seq<Label>, api: Api)
    requires OfCall(s.user, api) && NoCalls(labels)
    ensures OfCall(After(s, labels).user, api)
    decreases |labels|
  {
    if labels != [] {
      if Enabled(s, labels[0]) { StepOfCall(s, labels[0], api); }
      RunOfCall(Step(s, labels[0]), labels[1..], api);
    }
  }

  /** The frames that a call may send. */
  predicate MaySend(api: Api, f: Frame) {
    match api
    case ApiAcquire => f == Auth || f == Acquire
    case ApiEnqueue => f == Auth || f == Enqueue
    case ApiWait => f == Frame.Wait
    case ApiRelease => f.Release?
    case ApiClose => false
  }

  /** From its start to its return, whatever interleaves, a call sends only the frames of its kind. */
  lemma CallSends(s: State, api: Api, labels: seq<Label>)
    requires s.user.Idle? && NoCalls(labels)
    ensures var t := After(Next(s, Call(api)), labels); AtSend(t.user) ==> MaySend(api, UserFrame(t.user))
  {
    RunOfCall(Next(s, Call(api)), labels, api);
  }
}
