/** What a call of the asynchronous client returns is decided by the outcome of its command, unless it is cancelled. */
module AsyncReturns {
  import opened Basics
  import opened Session
  import opened Lifecycle
  import opened Attempts
  import opened AsyncMachine

  function ThenRet(th: Then): Ret { if th.Leave? then th.ret else NoRet }

  /** The value that the operation carries to its end, once it is decided. */
  function Carried(s: State): Ret {
    match s.user
    case Idle => s.last
    case CloseTask(th, _, _) => ThenRet(th)
    case CloseConn(th, _) => ThenRet(th)
    case AuthClosing(ret, _) => ret
    case _ => NoRet
  }

  lemma CloseCarries(s: State, ret: Ret)
    ensures Carried(Close(s, Leave(ret))) == ret
  {
  }

  /** The reply to the attempt's command decides, as in Attempts; a grant is stored as it was read. */
  lemma CommandDecides(s: State, r: Reply, sent: bool)
    requires s.user.Asking? && UserEnabled(s, Heard(r, sent))
    ensures Carried(UserNext(s, Heard(r, sent))) == CommandResult(s.user.cmd, Some(r)).1
    ensures r.Granted? ==> var t := UserNext(s, Heard(r, sent)); t.user.Idle? && t.token == Some(r.token) && t.lease == r.lease
  {
    var u := Emit(s, s.user.c, Got(r));
    CloseCarries(u, RetFalse);
    CloseCarries(u, RetRaised);
  }

  /** A command that raises decides as well, and so does any cancellation. */
  lemma FailureDecides(s: State)
    requires !s.user.Idle?
    ensures s.user.Asking? ==> Carried(UserNext(s, Failed)) == CommandResult(s.user.cmd, None).1
    ensures Carried(UserNext(s, Label.Cancelled)) == RetCancelled
  {
    match s.user
    case Asking(_, c) =>
      CloseCarries(CloseNow(s, c), RetRaised);
      CloseCarries(CloseNow(s, c), RetCancelled);
    case RelLock => CloseCarries(s, RetCancelled);
    case RelTask(_) => CloseCarries(s.(io := None), RetCancelled);
    case Releasing(c, _) => CloseCarries(CloseNow(s, c).(io := None), RetCancelled);
    case _ =>
  }

  /** So does the reply to a release. */
  lemma ReleaseDecides(s: State, r: Reply, sent: bool)
    requires s.user.Releasing? && UserEnabled(s, Heard(r, sent))
    ensures Carried(UserNext(s, Heard(r, sent))) == ReleaseResult(Held(s.user.tok, s.lease), true, Replied(r))
  {
    CloseCarries(Emit(s, s.user.c, Got(r)).(io := None), if r == Done then RetTrue else RetFalse);
  }

  lemma CarriedKept(s: State, l: Label)
    requires Enabled(s, l) && !l.Call? && Carried(s) != NoRet
    ensures Carried(Next(s, l)) == if l.Cancelled? then RetCancelled else Carried(s)
  {
    if l.TaskStep? {
      TaskKeepsUser(s, l.i, l.ch);
    } else if l.Cancelled? {
      FailureDecides(s);
    }
  }

  lemma TaskKeepsUser(s: State, i: nat, ch: TaskChoice)
    ensures TaskNext(s, i, ch).user == s.user && TaskNext(s, i, ch).last == s.last
  {
    if ch.Locked? { TickKeepsUser(s, i, ch.sent); }
  }

  lemma TickKeepsUser(s: State, i: nat, sent: bool)
    ensures TickBody(s, i, sent).user == s.user && TickBody(s, i, sent).last == s.last
  {
  }

  /** A decided value is the one that is returned, unless the rest of the call is cancelled. */
  lemma {:induction false} ReturnIsDecided(s: State, labels: seq<Label>)
    requires Carried(s) != NoRet && NoCalls(labels) && Possible(s, labels)
    ensures Carried(After(s, labels)) == if Label.Cancelled in labels then RetCancelled else Carried(s)
    decreases |labels|
  {
    if labels != [] {
      CarriedKept(s, labels[0]);
      ReturnIsDecided(Next(s, labels[0]), labels[1..]);
    }
  }

  /**
   acquire, enqueue and wait return what Attempts says of the reply, or CancelledError if and only if a
   later wait is cancelled.
   */
  lemma CallReturns(s: State, r: Reply, sent: bool, labels: seq<Label>)
    requires s.user.Asking? && UserEnabled(s, Heard(r, sent)) && NoCalls(labels) && Possible(UserNext(s, Heard(r, sent)), labels)
    requires After(UserNext(s, Heard(r, sent)), labels).user.Idle?
    ensures After(UserNext(s, Heard(r, sent)), labels).last ==
      if Label.Cancelled in labels then RetCancelled else CommandResult(s.user.cmd, Some(r)).1
    ensures Label.Cancelled !in labels ==>
      var ret, cmd := After(UserNext(s, Heard(r, sent)), labels).last, s.user.cmd;
      && (r.Granted? ==> ret == if cmd == CmdEnqueue then RetAcquired else RetTrue)
      && (r.Queued? ==> ret == if cmd == CmdEnqueue then RetQueued else RetRaised)
      && (r.TimedOut? ==> ret == if cmd == CmdEnqueue then RetRaised else RetFalse)
      && (r.Renewed? || r.Done? || r.Refused? ==> ret == RetRaised)
  {
    CommandDecides(s, r, sent);
    ReturnIsDecided(UserNext(s, Heard(r, sent)), labels);
  }

  /** Whatever goes wrong before the reply of an attempt or a wait raises, unless it is a cancellation or one follows. */
  lemma FailureReturns(s: State, l: Label, labels: seq<Label>)
    requires Enabled(s, l) && NoCalls(labels) && Possible(Next(s, l), labels) && After(Next(s, l), labels).user.Idle?
    requires (l == Failed && (s.user.Opening? || s.user.Authing? || s.user.Asking?)) || (s.user.Authing? && l.Heard? && l.r != Done)
    ensures After(Next(s, l), labels).last == if Label.Cancelled in labels then RetCancelled else RetRaised
  {
    if s.user.Asking? { FailureDecides(s); }
    ReturnIsDecided(Next(s, l), labels);
  }

  /**
   aclose() returns nothing unless it is cancelled; a wait returns true at once on a held instance and
   raises on one without a connection.
   */
  lemma PlainReturns(s: State, sent: bool, labels: seq<Label>)
    requires s.user.Idle? && NoCalls(labels)
    ensures var t := Next(s, Call(ApiClose, sent));
      Possible(t, labels) && After(t, labels).user.Idle? ==> After(t, labels).last == if Label.Cancelled in labels then RetCancelled else RetUnit
    ensures s.token.Some? ==> var t := Next(s, Call(ApiWait, sent)); t.user.Idle? && t.last == RetTrue && t == s.(last := RetTrue)
    ensures s.token.None? && s.conn.None? ==>
      var t := Next(s, Call(ApiWait, sent)); t.user.Idle? && t.last == RetRaised && t == s.(last := RetRaised)
  {
    CloseCarries(s, RetUnit);
    var t := Next(s, Call(ApiClose, sent));
    if Possible(t, labels) { ReturnIsDecided(t, labels); }
  }

  /**
   release returns true if and only if the server confirms and no later wait is cancelled; a
   cancellation raises CancelledError, and anything else returns false.
   */
  lemma ReleaseReturns(s: State, r: Reply, sent: bool, labels: seq<Label>)
    requires s.user.Releasing? && UserEnabled(s, Heard(r, sent)) && NoCalls(labels) && Possible(UserNext(s, Heard(r, sent)), labels)
    requires After(UserNext(s, Heard(r, sent)), labels).user.Idle?
    ensures After(UserNext(s, Heard(r, sent)), labels).last ==
      if Label.Cancelled in labels then RetCancelled else if r == Done then RetTrue else RetFalse
  {
    ReleaseDecides(s, r, sent);
    ReturnIsDecided(UserNext(s, Heard(r, sent)), labels);
  }

  /** A release that has not been answered yet. */
  predicate Unanswered(u: UserPc) { u.RelLock? || u.RelTask? || u.Releasing? }

  /** What a step of a release decides. */
  function Decided(l: Label): Ret {
    if l.Cancelled? then RetCancelled else if l.Heard? && l.r == Done then RetTrue else RetFalse
  }

  lemma SendDecides(s: State, sent: bool)
    ensures Unanswered(SendRelease(s, sent).user) || Carried(SendRelease(s, sent)) == RetFalse
  {
    CloseCarries(s.(io := None), RetFalse);
  }

  lemma ReleaseStep(s: State, l: Label)
    requires Unanswered(s.user) && Enabled(s, l)
    ensures Next(s, l).user == s.user || Unanswered(Next(s, l).user) || Carried(Next(s, l)) == Decided(l)
  {
    match l
    case TaskStep(i, ch) => TaskKeepsUser(s, i, ch);
    case Cancelled => FailureDecides(s);
    case Heard(r, sent) => ReleaseDecides(s, r, sent);
    case Failed => CloseCarries(CloseNow(s, s.user.c).(io := None), RetFalse);
    case Resumed(sent) =>
      if s.user.RelLock? {
        SendDecides(s.(io := Some(User), task := None), sent);
      } else {
        SendDecides(s, sent);
      }
  }

  /** A release that is neither confirmed nor cancelled returns false, whatever else happens in it. */
  lemma {:induction false} UnconfirmedReturns(s: State, labels: seq<Label>)
    requires Unanswered(s.user) && NoCalls(labels) && Possible(s, labels) && After(s, labels).user.Idle?
    requires Label.Cancelled !in labels && forall i :: 0 <= i < |labels| ==> !(labels[i].Heard? && labels[i].r == Done)
    ensures After(s, labels).last == RetFalse
    decreases |labels|
  {
    if labels != [] {
      var t := Next(s, labels[0]);
      ReleaseStep(s, labels[0]);
      if Unanswered(t.user) {
        UnconfirmedReturns(t, labels[1..]);
      } else {
        ReturnIsDecided(t, labels[1..]);
      }
    }
  }
}
