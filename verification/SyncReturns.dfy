/** What a call of the synchronous client returns is decided by the outcome of its command, whatever interleaves. */
module SyncReturns {
  import opened Basics
  import opened Session
  import opened Lifecycle
  import opened Attempts
  import opened SyncMachine
  import opened SyncRuns

  function ThenRet(th: Then): Ret {
    match th
    case Rearm(_) => NoRet
    case Failed(timedOut) => if timedOut then RetFalse else RetRaised
    case Released(ok) => if ok then RetTrue else RetFalse
    case Plain => RetUnit
  }

  /** The value that the operation carries to its end, once it is decided. */
  function Carried(s: State): Ret {
    match s.user
    case Idle => s.last
    case Cls(_, th) => ThenRet(th)
    case Shut(_, th) => ThenRet(th)
    case Clear(_, th) => ThenRet(th)
    case Grant(_, cmd) => GrantRet(cmd)
    case Rel(p) => if p.RelUnlock? then (if p.ok then RetTrue else RetFalse) else NoRet
    case Opening(p, _) => if p.AuthClose? then RetRaised else NoRet
    case _ => NoRet
  }

  /** The reply to the attempt's command decides, as in Attempts; a grant is stored as it was read. */
  lemma CommandDecides(s: State, r: Reply)
    requires s.user.Invoke? && Enabled(s, UHeard(r))
    ensures Carried(Next(s, UHeard(r))) == CommandResult(s.user.cmd, Some(r)).1
    ensures r.Granted? ==> Next(s, UHeard(r)).user == Grant(PutTok(r.token, r.lease), s.user.cmd)
  {
  }

  /** A command that raises decides as well. */
  lemma FailureDecides(s: State, l: Label)
    requires s.user.Invoke? && Enabled(s, l) && (l.USendFail? || l.UIoFail?)
    ensures Carried(Next(s, l)) == CommandResult(s.user.cmd, None).1
  {
  }

  /** So does the reply to a release. */
  lemma ReleaseDecides(s: State, r: Reply)
    requires s.user.Rel? && Enabled(s, UHeard(r))
    ensures Carried(Next(s, UHeard(r))) == ReleaseResult(Held(s.user.rp.tok, s.lease), true, Replied(r))
  {
  }

  lemma CloseCarried(s: State)
    requires s.user.Cls? || s.user.Shut? || (s.user.Clear? && !s.user.lp.ClrJoin?)
    requires Carried(s) != NoRet
    ensures Carried(UserGo(s)) == Carried(s)
  {
  }

  lemma GoCarried(s: State)
    requires Deterministic(s.user) && Carried(s) != NoRet
    ensures Carried(UserGo(s)) == Carried(s)
  {
    if s.user.Cls? || s.user.Shut? || s.user.Clear? { CloseCarried(s); }
  }

  lemma CarriedKept(s: State, l: Label)
    requires Enabled(s, l) && !l.Call? && Carried(s) != NoRet
    ensures Carried(Next(s, l)) == Carried(s)
  {
    if l.WorkerStep? {
      EffectKeepsUser(s, l.i, s.workers[l.i].pc, l.choice);
    } else if l.UGo? {
      GoCarried(s);
    }
  }

  lemma EffectKeepsUser(s: State, i: nat, pc: WorkerPc, ch: WorkerChoice)
    ensures WorkerEffect(s, i, pc, ch).user == s.user && WorkerEffect(s, i, pc, ch).last == s.last
  {
  }

  /** A decided value is the one that is returned. */
  lemma {:induction false} ReturnIsDecided(s: State, labels: seq<Label>)
    requires Carried(s) != NoRet && NoCalls(labels)
    ensures Carried(After(s, labels)) == Carried(s)
    decreases |labels|
  {
    if labels != [] {
      if Enabled(s, labels[0]) { CarriedKept(s, labels[0]); }
      ReturnIsDecided(Step(s, labels[0]), labels[1..]);
    }
  }

  /**
   acquire, enqueue and wait return what Attempts says of the reply, however the rest of the call is
   interleaved: a grant is true or "acquired", a timeout false but for an enqueue, "queued" is for
   an enqueue only, and everything else raises.
   */
  lemma CallReturns(s: State, r: Reply, labels: seq<Label>)
    requires s.user.Invoke? && Enabled(s, UHeard(r)) && NoCalls(labels)
    requires After(Next(s, UHeard(r)), labels).user.Idle?
    ensures After(Next(s, UHeard(r)), labels).last == CommandResult(s.user.cmd, Some(r)).1
    ensures var ret, cmd := After(Next(s, UHeard(r)), labels).last, s.user.cmd;
      && (r.Granted? ==> ret == if cmd == CmdEnqueue then RetAcquired else RetTrue)
      && (r.Queued? ==> ret == if cmd == CmdEnqueue then RetQueued else RetRaised)
      && (r.TimedOut? ==> ret == if cmd == CmdEnqueue then RetRaised else RetFalse)
      && (r.Renewed? || r.Done? || r.Refused? ==> ret == RetRaised)
  {
    CommandDecides(s, r);
    ReturnIsDecided(Next(s, UHeard(r)), labels);
  }

  /** Whatever goes wrong before the reply of an attempt or a wait raises: dialling, auth, and the command itself. */
  lemma FailureReturns(s: State, l: Label, labels: seq<Label>)
    requires Enabled(s, l) && NoCalls(labels) && After(Next(s, l), labels).user.Idle?
    requires (s.user.Invoke? && (l.USendFail? || l.UIoFail?)) || l.UDialFail?
      || (s.user.Opening? && (l.USendFail? || l.UIoFail? || (l.UHeard? && l.r != Done)))
    ensures After(Next(s, l), labels).last == RetRaised
  {
    ReturnIsDecided(Next(s, l), labels);
  }

  /** close() returns nothing; a wait returns true at once on a held instance and raises on one without a connection. */
  lemma PlainReturns(s: State, labels: seq<Label>)
    requires NoCalls(labels)
    ensures s.user.Idle? && After(Next(s, Call(ApiClose)), labels).user.Idle? ==> After(Next(s, Call(ApiClose)), labels).last == RetUnit
    ensures s.user.WaitTok? && s.token.Some? ==> After(Next(s, UGo), labels).user.Idle? && After(Next(s, UGo), labels).last == RetTrue
    ensures s.user.WaitConn? && s.conn.None? ==> After(Next(s, UGo), labels).user.Idle? && After(Next(s, UGo), labels).last == RetRaised
  {
    if s.user.Idle? { ReturnIsDecided(Next(s, Call(ApiClose)), labels); }
    if s.user.WaitTok? && s.token.Some? { StaysIdle(Next(s, UGo), labels); }
    if s.user.WaitConn? && s.conn.None? { StaysIdle(Next(s, UGo), labels); }
  }

  /** Between calls workers do not change what was returned. */
  lemma {:induction false} StaysIdle(s: State, labels: seq<Label>)
    requires s.user.Idle? && NoCalls(labels)
    ensures After(s, labels).user.Idle? && After(s, labels).last == s.last
    decreases |labels|
  {
    if labels != [] {
      if Enabled(s, labels[0]) { EffectKeepsUser(s, labels[0].i, s.workers[labels[0].i].pc, labels[0].choice); }
      StaysIdle(Step(s, labels[0]), labels[1..]);
    }
  }

  /**
   release returns true if and only if the server confirms: from the answer to its frame to its
   return, however the rest of the call is interleaved.
   */
  lemma ReleaseReturns(s: State, r: Reply, labels: seq<Label>)
    requires s.user.Rel? && Enabled(s, UHeard(r)) && NoCalls(labels)
    requires After(Next(s, UHeard(r)), labels).user.Idle?
    ensures After(Next(s, UHeard(r)), labels).last == if r == Done then RetTrue else RetFalse
  {
    ReleaseDecides(s, r);
    ReturnIsDecided(Next(s, UHeard(r)), labels);
  }

  /** A release that has not been answered yet. */
  predicate Releasing(u: UserPc) { u.Rel? && !u.rp.RelUnlock? }

  /** Only a confirmation decides for true. */
  lemma ReleaseStep(s: State, l: Label)
    requires Releasing(s.user) && Enabled(s, l)
    ensures Releasing(Next(s, l).user) || Carried(Next(s, l)) == if l == UHeard(Done) then RetTrue else RetFalse
  {
    if l.WorkerStep? { EffectKeepsUser(s, l.i, s.workers[l.i].pc, l.choice); }
  }

  /** A release that is not answered with a confirmation returns false, whatever else happens in it. */
  lemma {:induction false} UnconfirmedReturns(s: State, labels: seq<Label>)
    requires Releasing(s.user) && NoCalls(labels) && UHeard(Done) !in labels && After(s, labels).user.Idle?
    ensures After(s, labels).last == RetFalse
    decreases |labels|
  {
    if labels != [] {
      var t := Step(s, labels[0]);
      if Enabled(s, labels[0]) { ReleaseStep(s, labels[0]); }
      if Releasing(t.user) {
        UnconfirmedReturns(t, labels[1..]);
      } else {
        ReturnIsDecided(t, labels[1..]);
      }
    }
  }
}
