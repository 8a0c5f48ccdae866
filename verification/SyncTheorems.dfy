/**
 What holds in every run of the synchronous machine without a token slip; lease and update slips
 may happen. SyncSlipKinds shows that exactly the token slips can break each of these theorems.
 */
module SyncTheorems {
  import opened Basics
  import opened Session
  import opened Lifecycle
  import opened SyncMachine
  import opened SyncRuns
  import opened Runs
  import opened SyncInvariant

  /** The invariant holds in every reachable state, as long as no token slip happened. */
  lemma ReachableInv(s: State)
    requires Reachable(s, TOKEN_SLIPS)
    ensures Inv(s)
  {
    InitialInv();
    forall t, l | Inv(t) && Enabled(t, l) && Avoids(t, l, TOKEN_SLIPS) ensures Inv(Next(t, l)) { NextKeeps(t, l); }
    ReachableKeeps(s, TOKEN_SLIPS, t => Inv(t));
  }

  // ----- which event a step adds to which trace

  datatype Emission = Quiet | Emitted(c: nat, e: Event)

  function UserEmission(s: State, l: Label): Emission
    requires !l.WorkerStep? && UserEnabled(s, l)
  {
    match l
    case USendOk => Emitted(CommandConn(s.user), Sent(UserFrame(s.user)))
    case UHeard(r) => Emitted(CommandConn(s.user), Got(r))
    case _ => Quiet
  }

  function WorkerEmission(pc: WorkerPc, ch: WorkerChoice): Emission {
    match pc
    case Tick(Renewing(p)) =>
      if ch.SendOk? then Emitted(p.c, Sent(Renew(p.tok))) else if ch.Heard? then Emitted(p.c, Got(ch.r)) else Quiet
    case _ => Quiet
  }

  function StepEmission(s: State, l: Label): Emission
    requires Enabled(s, l)
  {
    if l.WorkerStep? then WorkerEmission(s.workers[l.i].pc, l.choice) else UserEmission(s, l)
  }

  /** t has the traces of s, except for the event em; connections made by the step start empty. */
  ghost predicate TracesGrow(s: State, t: State, em: Emission) {
    && |s.conns| <= |t.conns|
    && forall c :: 0 <= c < |t.conns| ==>
         var was := ConnAt(s, c);
         if c >= |s.conns| then t.conns[c].trace == [] && t.conns[c].phase == Fresh
         else if em.Emitted? && em.c == c then t.conns[c].trace == was.trace + [em.e] && t.conns[c].phase == Advance(was.phase, em.e)
         else t.conns[c].trace == was.trace && t.conns[c].phase == was.phase
  }

  lemma GoTraces(s: State)
    requires Deterministic(s.user)
    ensures TracesGrow(s, UserGo(s), Quiet)
  {
  }

  lemma UserTraces(s: State, l: Label)
    requires !l.WorkerStep? && UserEnabled(s, l)
    ensures TracesGrow(s, UserNext(s, l), UserEmission(s, l))
  {
    if l.UGo? { GoTraces(s); }
  }

  lemma WorkerTraces(s: State, i: nat, ch: WorkerChoice)
    requires i < |s.workers| && WorkerEnabled(s, s.workers[i].pc, s.workers[i].ev in s.raised, ch)
    ensures TracesGrow(s, WorkerNext(s, i, ch), WorkerEmission(s.workers[i].pc, ch))
  {
  }

  /** The phase kept with each connection is the phase of its trace. */
  ghost predicate PhasesTrue(s: State) {
    forall c :: 0 <= c < |s.conns| ==> s.conns[c].phase == Run(s.conns[c].trace)
  }

  lemma PhasesKept(s: State, l: Label)
    requires PhasesTrue(s) && Enabled(s, l)
    ensures PhasesTrue(Next(s, l))
  {
    var t := Next(s, l);
    if l.WorkerStep? { WorkerTraces(s, l.i, l.choice); } else { UserTraces(s, l); }
    var em := StepEmission(s, l);
    if em.Emitted? && em.c < |s.conns| {
      RunAppend(s.conns[em.c].trace, em.e);
    }
  }

  /** In every run, whatever slips happened. */
  lemma ReachablePhases(s: State)
    requires Reachable(s, NOTHING)
    ensures PhasesTrue(s)
  {
    forall t, l | PhasesTrue(t) && Enabled(t, l) && Avoids(t, l, NOTHING) ensures PhasesTrue(Next(t, l)) { PhasesKept(t, l); }
    ReachableKeeps(s, NOTHING, t => PhasesTrue(t));
  }

  // ----- session grammar

  /** On every connection the frames sent so far are a session, with the token granted there. */
  lemma EverySession(s: State, c: nat)
    requires Reachable(s, TOKEN_SLIPS) && c < |s.conns|
    ensures Run(s.conns[c].trace) != Bad
    ensures InGrammar(Frames(s.conns[c].trace), GrantOf(s.conns[c].trace))
  {
    ReachableInv(s);
    Looser(s, TOKEN_SLIPS, NOTHING);
    ReachablePhases(s);
    SessionGrammar(s.conns[c].trace);
  }

  // ----- isolation

  /** A step of a worker whose attempt has been replaced by a later one. */
  predicate OfOldAttempt(s: State, l: Label) {
    l.WorkerStep? && l.i < |s.workers| && s.workers[l.i].ev < s.attempt
  }

  lemma OldWorkerQuiet(s: State, l: Label)
    requires Inv(s) && Enabled(s, l) && OfOldAttempt(s, l)
    ensures var t := Next(s, l); t.conn == s.conn && t.token == s.token && StepEmission(s, l) == Quiet
    ensures s.conn.Some? ==> ConnAt(Next(s, l), s.conn.value) == ConnAt(s, s.conn.value)
    ensures s.user.Opening? && UserConn(s.user).Some? ==>
      ConnAt(Next(s, l), UserConn(s.user).value) == ConnAt(s, UserConn(s.user).value)
  {
    assert StalePc(s.workers[l.i].pc);
  }

  /**
   Isolation of connection, token and wire: a worker of an earlier attempt never writes _conn or
   token, sends and reads nothing, and leaves the later attempt's connection alone.
   */
  lemma TokenIsolation(s: State, l: Label)
    requires Reachable(s, TOKEN_SLIPS) && Enabled(s, l) && OfOldAttempt(s, l)
    ensures var t := Next(s, l); t.conn == s.conn && t.token == s.token && StepEmission(s, l) == Quiet
    ensures s.conn.Some? ==> ConnAt(Next(s, l), s.conn.value) == ConnAt(s, s.conn.value)
    ensures s.user.Opening? && UserConn(s.user).Some? ==>
      ConnAt(Next(s, l), UserConn(s.user).value) == ConnAt(s, UserConn(s.user).value)
  {
    ReachableInv(s);
    OldWorkerQuiet(s, l);
  }

  /** A worker past its stop test, up to the clearing of the token, belongs to the current attempt. */
  lemma HandlerIsCurrent(s: State, i: nat)
    requires Reachable(s, TOKEN_SLIPS) && i < |s.workers| && (Past(s.workers[i].pc) || AtToken(s.workers[i].pc))
    ensures s.workers[i].ev == s.attempt
  {
    ReachableInv(s);
    assert s.workers[i].ev < s.attempt ==> StalePc(s.workers[i].pc);
  }

  // ----- one live worker, coherent state

  /** A worker that has not ended and whose stop event is unset. */
  predicate Live(s: State, i: nat) { !PcAt(s, i).WDone? && i < |s.workers| && s.workers[i].ev !in s.raised }

  /** A started worker whose stop event is unset is the instance's thread, and its event is the current one. */
  lemma UniqueLiveWorker(s: State, i: nat)
    requires Reachable(s, TOKEN_SLIPS) && i < |s.workers| && Live(s, i)
    ensures s.thread == Some(i) && s.workers[i].ev == s.attempt
    ensures forall j :: 0 <= j < |s.workers| && Live(s, j) ==> j == i
  {
    ReachableInv(s);
  }

  /** The token is the one granted on the connection held, and the current worker is at work to renew it. */
  predicate Coherent(s: State) {
    && s.token.Some? && s.conn.Some? && s.conn.value < |s.conns|
    && GrantOf(s.conns[s.conn.value].trace) == s.token && Run(s.conns[s.conn.value].trace) == Holding(s.token.value)
    && s.thread.Some? && Live(s, s.thread.value) && !s.closed
  }

  /** Between operations, with the I/O lock free, a token comes with everything that keeps it alive; the lease is in SyncLease. */
  lemma HeldCoherence(s: State)
    requires Reachable(s, TOKEN_SLIPS) && s.user.Idle? && s.io.None? && s.token.Some?
    ensures Coherent(s)
  {
    ReachableInv(s);
    HoldsGranted(s);
    Looser(s, TOKEN_SLIPS, NOTHING);
    ReachablePhases(s);
    var p := TraceParts(s.conns[s.conn.value].trace);
  }

  lemma HoldsGranted(s: State)
    requires Inv(s) && s.user.Idle? && s.io.None? && s.token.Some?
    ensures s.conn.Some? && s.conn.value < |s.conns| && s.conns[s.conn.value].phase == Holding(s.token.value)
    ensures s.thread.Some? && Live(s, s.thread.value) && !s.closed
  {
  }

  // ----- the abstract machine

  /** The grant that the user operation has read and not yet stored. */
  function Incoming(u: UserPc): Option<Token> {
    if u.Grant? && u.gp.PutTok? then Some(u.gp.tok) else None
  }

  /** The abstract state of an instance. */
  function LifeOf(s: State): Life {
    if s.conn.None? then AtRest
    else
      var c := s.conn.value;
      if s.token.Some? then Owner(c, s.token.value)
      else if Incoming(s.user).Some? then Owner(c, Incoming(s.user).value)
      else if ConnAt(s, c).phase.InQueue? || ConnAt(s, c).phase.WaitSent? then InLine(c)
      else AtRest
  }

  /**
   Who may cause a change: the reply to the instance's own command on its own connection,
   the user taking the connection away, or the current worker after a failed renew.
   */
  predicate Causes(s: State, l: Label, cause: Cause) {
    match cause
    case NoCause => true
    case Granting => l.UHeard? && l.r.Granted? && s.user.Invoke? && s.conn == Some(s.user.ip.c)
    case Queueing => l == UHeard(Queued) && s.user.Invoke? && s.user.cmd == CmdEnqueue && s.conn == Some(s.user.ip.c)
    case Ending =>
      || (l == UGo && s.user.Shut? && s.user.hp.ShutDetach?)
      || (l.UHeard? && s.user.Invoke? && s.user.cmd == CmdWait)
      || (l.WorkerStep? && l.i < |s.workers| && RenewFailed(s.workers[l.i].pc) && s.workers[l.i].ev == s.attempt)
  }

  predicate Refines(s: State, l: Label, t: State) {
    LifeStep(LifeOf(s), LifeOf(t), CauseOf(LifeOf(s), LifeOf(t))) && Causes(s, l, CauseOf(LifeOf(s), LifeOf(t)))
  }

  /** A step that keeps the fields, the phase of the connection and the incoming grant is a stutter. */
  lemma Stutters(s: State, l: Label, t: State)
    requires t.conn == s.conn && t.token == s.token && Incoming(t.user) == Incoming(s.user)
    requires s.conn.Some? ==> ConnAt(t, s.conn.value).phase == ConnAt(s, s.conn.value).phase
    ensures Refines(s, l, t)
  {
  }

  lemma StopRefines(s: State)
    requires Deterministic(s.user) && (s.user.Stop? || s.user.Rel?)
    ensures Refines(s, UGo, UserGo(s))
  {
    Stutters(s, UGo, UserGo(s));
  }

  lemma ClsRefines(s: State)
    requires s.user.Cls? || s.user.Rearming? || s.user.WaitTok? || s.user.WaitConn?
    ensures Refines(s, UGo, UserGo(s))
  {
    Stutters(s, UGo, UserGo(s));
  }

  lemma ShutRefines(s: State)
    requires s.user.Shut?
    ensures Refines(s, UGo, UserGo(s))
  {
    if !s.user.hp.ShutDetach? {
      Stutters(s, UGo, UserGo(s));
    }
  }

  lemma ClearRefines(s: State)
    requires s.user.Clear? && !s.user.lp.ClrJoin? && s.conn.None?
    ensures Refines(s, UGo, UserGo(s))
  {
  }

  lemma OpenRefines(s: State)
    requires s.user.Opening? && Deterministic(s.user) && OpenHands(s, s.user.xp)
    ensures Refines(s, UGo, UserGo(s))
  {
  }

  lemma GrantRefines(s: State)
    requires s.user.Grant? && GrantHands(s, s.user.gp)
    ensures Refines(s, UGo, UserGo(s))
  {
  }

  lemma HeardRefines(s: State, r: Reply)
    requires AtRecv(s.user) && Hands(s)
    ensures Refines(s, UHeard(r), UserHeard(s, r))
  {
    if !s.user.Invoke? {
      assert s.user.Opening? ==> s.conn.None?;
    }
  }

  lemma WriteRefines(s: State)
    requires AtSend(s.user) && Hands(s)
    ensures Refines(s, USendOk, UserWrite(s))
  {
  }

  lemma UserGoRefines(s: State)
    requires UserEnabled(s, UGo) && Hands(s)
    ensures Refines(s, UGo, UserGo(s))
  {
    match s.user
    case Stop(_, _) => StopRefines(s);
    case Rel(_) => StopRefines(s);
    case Shut(_, _) => ShutRefines(s);
    case Clear(_, _) => ClearRefines(s);
    case Opening(_, _) => OpenRefines(s);
    case Grant(_, _) => GrantRefines(s);
    case Cls(_, _) => ClsRefines(s);
    case Rearming(_, _) => ClsRefines(s);
    case WaitTok => ClsRefines(s);
    case WaitConn => ClsRefines(s);
  }

  lemma UserRefines(s: State, l: Label)
    requires !l.WorkerStep? && UserEnabled(s, l) && Hands(s) && (s.conn.Some? ==> s.conn.value < |s.conns|)
    ensures Refines(s, l, UserNext(s, l))
  {
    if l.UGo? {
      UserGoRefines(s);
    } else if l.UHeard? {
      HeardRefines(s, l.r);
    } else if l.USendOk? {
      WriteRefines(s);
    } else {
      Stutters(s, l, UserNext(s, l));
    }
  }

  /** The failure handler may end a hold; before and after it clears the connection field nothing else changes. */
  lemma FailRefines(s: State, i: nat, ch: WorkerChoice)
    requires i < |s.workers| && s.workers[i].pc.Tick? && s.workers[i].pc.tp.Failing?
    requires s.workers[i].ev != s.attempt ==> StalePc(s.workers[i].pc)
    requires Past(s.workers[i].pc) ==> s.token.Some?
    requires AtToken(s.workers[i].pc) || AtLease(s.workers[i].pc) ==> s.conn.None? || s.workers[i].ev != s.attempt
    ensures Refines(s, WorkerStep(i, ch), WorkerNext(s, i, ch))
  {
  }

  /** A renew of a held token is sent or answered: the owner stays the owner. */
  lemma RenewRefines(s: State, i: nat, ch: WorkerChoice)
    requires i < |s.workers| && s.workers[i].pc.Tick? && s.workers[i].pc.tp.Renewing? && s.token.Some?
    requires WorkerEnabled(s, s.workers[i].pc, s.workers[i].ev in s.raised, ch)
    ensures Refines(s, WorkerStep(i, ch), WorkerNext(s, i, ch))
  {
  }

  lemma WorkerRefines(s: State, i: nat, ch: WorkerChoice)
    requires i < |s.workers| && WorkerEnabled(s, s.workers[i].pc, s.workers[i].ev in s.raised, ch)
    requires s.workers[i].ev != s.attempt ==> StalePc(s.workers[i].pc)
    requires Past(s.workers[i].pc) ==> s.token.Some?
    requires AtToken(s.workers[i].pc) || AtLease(s.workers[i].pc) ==> s.conn.None? || s.workers[i].ev != s.attempt
    ensures Refines(s, WorkerStep(i, ch), WorkerNext(s, i, ch))
  {
    var pc := s.workers[i].pc;
    if pc.Tick? && pc.tp.Failing? {
      FailRefines(s, i, ch);
    } else if pc.Tick? && pc.tp.Renewing? {
      RenewRefines(s, i, ch);
    } else {
      Stutters(s, WorkerStep(i, ch), WorkerNext(s, i, ch));
    }
  }

  /** Every step of the implementation is a step of the abstract machine with the same cause. */
  lemma StepRefines(s: State, l: Label)
    requires Reachable(s, TOKEN_SLIPS) && Enabled(s, l)
    ensures Refines(s, l, Next(s, l))
  {
    ReachableInv(s);
    if l.WorkerStep? {
      assert s.workers[l.i].ev == s.attempt ==> l.i == |s.workers| - 1;
      WorkerRefines(s, l.i, l.choice);
    } else {
      UserRefines(s, l);
    }
  }

  /** The failure handler has cleared the connection field and not yet the token (between lines 645 and 646). */
  predicate HalfLost(s: State) { s.io.Some? && s.io.value.Worker? && AtToken(PcAt(s, s.io.value.id)) }

  /**
   What the value an operation returns says about the abstract state in which it returns. A wait
   that finds a token returns true without looking further: that is as owner exactly if the
   failure handler is not in the middle of its work.
   */
  predicate Returned(before: UserPc, t: State) {
    match t.last
    case RetAcquired => LifeOf(t).Owner?
    case RetQueued => LifeOf(t).InLine?
    case RetTrue =>
      if before.Grant? then LifeOf(t).Owner? && t.thread.Some?
      else if before.WaitTok? then t.token.Some? && (LifeOf(t).Owner? <==> !HalfLost(t))
      else LifeOf(t) == AtRest && t.token.None?
    case NoRet => false
    case _ => LifeOf(t) == AtRest && t.token.None?
  }

  lemma ClosingReturns(s: State, p: Option<WorkerPc>)
    requires (s.user.Cls? && Flags(s, p)) || (s.user.Clear? && Hands(s))
    requires UserEnabled(s, UGo) && UserGo(s).user.Idle?
    ensures Returned(s.user, UserGo(s))
  {
  }

  lemma OpeningReturns(s: State, l: Label)
    requires s.user.Opening? && Hands(s) && !l.WorkerStep? && UserEnabled(s, l) && UserNext(s, l).user.Idle?
    ensures Returned(s.user, UserNext(s, l))
  {
  }

  lemma GrantReturns(s: State, p: Option<WorkerPc>)
    requires s.user.Grant? && Hands(s) && Threads(s, p) && UserGo(s).user.Idle?
    ensures Returned(s.user, UserGo(s))
  {
  }

  lemma HalfLostExactly(s: State)
    requires Inv(s) && s.user.WaitTok? && s.token.Some?
    ensures s.conn.None? <==> HalfLost(s)
  {
    if HalfLost(s) {
      assert !StalePc(s.workers[s.io.value.id].pc);
    }
  }

  lemma WaitReturns(s: State)
    requires Inv(s) && (s.user.WaitTok? || s.user.WaitConn?) && UserGo(s).user.Idle?
    ensures Returned(s.user, UserGo(s))
  {
    if s.user.WaitTok? && s.token.Some? { HalfLostExactly(s); }
  }

  lemma QueuedReturns(s: State, r: Reply)
    requires s.user.Invoke? && Hands(s) && AtRecv(s.user) && UserHeard(s, r).user.Idle?
    ensures Returned(s.user, UserHeard(s, r))
  {
  }

  lemma UserReturns(s: State, p: Option<WorkerPc>, l: Label)
    requires Inv(s) && p == Cur(s)
    requires !l.WorkerStep? && UserEnabled(s, l) && !s.user.Idle? && UserNext(s, l).user.Idle?
    ensures Returned(s.user, UserNext(s, l))
  {
    match s.user
    case Cls(_, _) => ClosingReturns(s, p);
    case Clear(_, _) => ClosingReturns(s, p);
    case Opening(_, _) => OpeningReturns(s, l);
    case Grant(_, _) => GrantReturns(s, p);
    case WaitTok => WaitReturns(s);
    case WaitConn => WaitReturns(s);
    case Invoke(_, _) => QueuedReturns(s, l.r);
  }

  /**
   An operation returns "acquired" or a granted true only as owner with a worker started, "queued"
   only in line, true from a wait that finds a token as owner unless the hold is half lost, and
   everything else only at rest.
   */
  lemma ReturnValues(s: State, l: Label)
    requires Reachable(s, TOKEN_SLIPS) && Enabled(s, l) && !l.WorkerStep? && !s.user.Idle? && Next(s, l).user.Idle?
    ensures Returned(s.user, Next(s, l))
  {
    ReachableInv(s);
    UserReturns(s, Cur(s), l);
  }
}
