/** Release and close of the asynchronous client clean up on every exit, and cannot hang. */
module AsyncCleanup {
  import opened Basics
  import opened Session
  import opened Lifecycle
  import opened AsyncMachine
  import opened Runs
  import opened AsyncInvariant
  import opened AsyncTheorems

  /** The operation is in release, in close(), or in the close that ends a failed attempt. */
  predicate Cleaning(u: UserPc) {
    u.RelLock? || u.RelTask? || u.Releasing? || ((u.CloseTask? || u.CloseConn?) && u.th.Leave?)
  }

  /** Nothing is held and no transport is open. */
  ghost predicate Gone(s: State) {
    && s.conn.None? && s.token.None? && s.lease == 0 && s.closed && s.task.None?
    && forall c :: 0 <= c < |s.conns| ==> !s.conns[c].open
  }

  ghost predicate Clean(s: State) { Cleaning(s.user) || (s.user.Idle? && Gone(s)) }

  /** An upper bound of the steps a cleaning operation has still to take. */
  function Rank(u: UserPc): nat {
    match u
    case RelLock => 5
    case RelTask(_) => 4
    case Releasing(_, _) => 3
    case CloseTask(_, _, _) => 2
    case CloseConn(_, _) => 1
    case _ => 0
  }

  lemma ClosedGone(s: State)
    requires Inv(s) && s.closed
    ensures Gone(s)
  {
    forall c | 0 <= c < |s.conns| ensures !s.conns[c].open { assert ConnOk(s, c, HandOf(s.user)); }
  }

  lemma CloseCleans(s: State, ret: Ret)
    requires Core(s, None) && s.io != Some(User) && Leaves(Leave(ret))
    ensures Clean(Close(s, Leave(ret))) && Rank(Close(s, Leave(ret)).user) <= 2
  {
    CloseInv(s, Leave(ret));
    ClosedGone(Close(s, Leave(ret)));
  }

  lemma ReleaseEndCleans(s: State, ret: Ret)
    requires Core(s, None) && !Renewing(s) && Leaves(Leave(ret))
    ensures Clean(ReleaseEnd(s, ret)) && Rank(ReleaseEnd(s, ret).user) <= 2
  {
    var u := s.(io := None);
    forall i | 0 <= i < |u.tasks| ensures TaskOk(u, i) { assert TaskOk(s, i); }
    forall d | 0 <= d < |u.conns| ensures ConnOk(u, d, None) { assert ConnOk(s, d, None); }
    CloseCleans(u, ret);
  }

  lemma SendReleaseCleans(s: State, sent: bool)
    requires Core(s, None) && !Renewing(s)
    ensures Clean(SendRelease(s, sent)) && Rank(SendRelease(s, sent).user) <= 3
  {
    ReleaseEndCleans(s, RetFalse);
  }

  lemma ReleaseBodyCleans(s: State, sent: bool)
    requires Core(s, None) && s.io.None?
    ensures Clean(ReleaseBody(s, sent)) && Rank(ReleaseBody(s, sent).user) <= 4
  {
    var u := s.(io := Some(User));
    forall i | 0 <= i < |u.tasks| ensures TaskOk(u, i) { assert TaskOk(s, i); }
    forall d | 0 <= d < |u.conns| ensures ConnOk(u, d, None) { assert ConnOk(s, d, None); }
    if !MustCancel(u) {
      DropTaskCore(u, None);
      SendReleaseCleans(u.(task := None), sent);
    }
  }

  lemma ResumedCleans(s: State, sent: bool)
    requires Inv(s) && Cleaning(s.user) && CanResume(s)
    ensures Clean(ResumedNext(s, sent)) && Rank(ResumedNext(s, sent).user) < Rank(s.user)
  {
    match s.user
    case CloseTask(th, c, _) =>
      CloseTailInv(s, th, c);
      if c.None? { ClosedGone(ResumedNext(s, sent)); }
    case CloseConn(th, _) =>
      AfterCloseInv(s, th);
      ClosedGone(ResumedNext(s, sent));
    case RelLock => ReleaseBodyCleans(s, sent);
    case RelTask(_) => SendReleaseCleans(s, sent);
  }

  /** A reply, a failure or a cancellation while the release is in flight. */
  lemma ReleasingCleans(s: State, k: Conn, ret: Ret)
    requires Inv(s) && s.user.Releasing? && k.phase != Bad && Leaves(Leave(ret))
    ensures Clean(ReleaseEnd(s.(conns := s.conns[s.user.c := k]), ret))
    ensures Rank(ReleaseEnd(s.(conns := s.conns[s.user.c := k]), ret).user) <= 2
  {
    var u := s.(conns := s.conns[s.user.c := k]);
    forall i | 0 <= i < |u.tasks| ensures TaskOk(u, i) { assert TaskOk(s, i); }
    forall d | 0 <= d < |u.conns| ensures ConnOk(u, d, None) { assert ConnOk(s, d, None); }
    ReleaseEndCleans(u, ret);
  }

  lemma CancelledCleans(s: State)
    requires Inv(s) && Cleaning(s.user)
    ensures Clean(CancelledNext(s)) && Rank(CancelledNext(s).user) < Rank(s.user)
  {
    match s.user
    case RelLock => CloseCleans(s, RetCancelled);
    case RelTask(_) => ReleaseEndCleans(s, RetCancelled);
    case Releasing(c, _) =>
      ReleasingCleans(s, CloseNow(s, c).conns[c], RetCancelled);
    case CloseTask(_, _, _) => ClosedGone(s);
    case CloseConn(_, _) => ClosedGone(s);
  }

  /** Every step of a cleaning operation, a cancellation included, cleans on or ends with everything gone. */
  lemma UserCleans(s: State, l: Label)
    requires Inv(s) && Cleaning(s.user) && UserEnabled(s, l)
    ensures Clean(UserNext(s, l)) && Rank(UserNext(s, l).user) < Rank(s.user)
  {
    match l
    case Resumed(sent) => ResumedCleans(s, sent);
    case Heard(r, _) => ReleasingCleans(s, Emit(s, s.user.c, Got(r)).conns[s.user.c], if r == Done then RetTrue else RetFalse);
    case Failed => ReleasingCleans(s, CloseNow(s, s.user.c).conns[s.user.c], RetFalse);
    case Cancelled => CancelledCleans(s);
  }

  lemma TaskKeepsPlace(s: State, i: nat, ch: TaskChoice)
    requires TaskEnabled(s, i, ch)
    ensures TaskNext(s, i, ch).user == s.user && TaskNext(s, i, ch).closed == s.closed
  {
  }

  /** Tasks, cancelled or not, cannot undo it. */
  lemma TaskCleans(s: State, i: nat, ch: TaskChoice)
    requires Inv(s) && Clean(s) && i < |s.tasks| && TaskEnabled(s, i, ch)
    ensures Clean(TaskNext(s, i, ch)) && TaskNext(s, i, ch).user == s.user
  {
    TaskKeepsPlace(s, i, ch);
    TaskKeeps(s, i, ch);
    if s.user.Idle? { ClosedGone(TaskNext(s, i, ch)); }
  }

  /** How many of the steps are the operation's own. */
  function OwnSteps(labels: seq<Label>): nat {
    if labels == [] then 0 else (if labels[0].TaskStep? then 0 else 1) + OwnSteps(labels[1..])
  }

  lemma {:induction false} CleaningRun(s: State, labels: seq<Label>)
    requires Inv(s) && Clean(s) && Possible(s, labels) && NoCalls(labels)
    ensures Clean(After(s, labels)) && Inv(After(s, labels))
    ensures OwnSteps(labels) + Rank(After(s, labels).user) <= Rank(s.user)
    decreases |labels|
  {
    if labels != [] {
      var l := labels[0];
      NextKeeps(s, l);
      if l.TaskStep? { TaskCleans(s, l.i, l.ch); } else { UserCleans(s, l); }
      CleaningRun(Next(s, l), labels[1..]);
    }
  }

  lemma CallCleans(s: State, api: Api, sent: bool)
    requires Inv(s) && s.user.Idle? && (api.ApiRelease? || api.ApiClose?)
    ensures Inv(CallNext(s, api, sent)) && Clean(CallNext(s, api, sent)) && Rank(CallNext(s, api, sent).user) <= 5
  {
    CallInv(s, api, sent);
    if api.ApiClose? { CloseCleans(s, RetUnit); }
  }

  /**
   Cancellation-safe cleanup: after a call of release() or close(), whatever is cancelled, fails or
   answers, the operation is still at it or has ended with nothing held and every transport
   closed; it takes at most five further steps of its own, and no task changes the outcome.
   */
  lemma CleanupSafe(s: State, api: Api, sent: bool, labels: seq<Label>)
    requires Reachable(s) && s.user.Idle? && (api.ApiRelease? || api.ApiClose?)
    requires Possible(CallNext(s, api, sent), labels) && NoCalls(labels)
    ensures var t := After(CallNext(s, api, sent), labels); Cleaning(t.user) || (t.user.Idle? && Gone(t))
    ensures OwnSteps(labels) <= 5
  {
    ReachableInv(s);
    CallCleans(s, api, sent);
    CleaningRun(CallNext(s, api, sent), labels);
  }

  // ----- nothing can hang

  /** Steps that need neither a cancellation nor an answer of the server. */
  predicate Unaided(labels: seq<Label>) {
    forall i :: 0 <= i < |labels| ==> labels[i] == Resumed(false) || labels[i] == Failed || (labels[i].TaskStep? && !labels[i].ch.TaskHeard?)
  }

  lemma AwaitedTask(s: State, t: nat) returns (labels: seq<Label>)
    requires Inv(s) && (s.user.ResetTask? || s.user.CloseTask? || s.user.RelTask?) && t == s.user.t
    ensures |labels| <= 1 && Unaided(labels) && Possible(s, labels) && NoCalls(labels)
    ensures After(s, labels).user == s.user && CanResume(After(s, labels))
  {
    if TaskAt(s, t).pc.TDone? {
      labels := [];
    } else {
      labels := [TaskStep(t, Cancel)];
      var u := Next(s, labels[0]);
      assert Possible(u, labels[1..]) && After(u, labels[1..]) == u;
    }
  }

  lemma LockHolder(s: State) returns (labels: seq<Label>)
    requires Inv(s) && s.user.RelLock?
    ensures |labels| <= 1 && Unaided(labels) && Possible(s, labels) && NoCalls(labels)
    ensures After(s, labels).user == s.user && CanResume(After(s, labels))
  {
    if s.io.None? {
      labels := [];
    } else {
      var i := s.io.value.id;
      assert TaskOk(s, i);
      labels := [TaskStep(i, if TaskAt(s, i).cancelled then Cancel else TaskFailed)];
      var u := Next(s, labels[0]);
      assert Possible(u, labels[1..]) && After(u, labels[1..]) == u;
    }
  }

  lemma ResumedMoves(s: State)
    requires CanResume(s)
    ensures ResumedNext(s, false).user != s.user
  {
  }

  lemma FailedMoves(s: State)
    requires s.user.Opening? || InFlight(s.user)
    ensures FailedNext(s).user != s.user
  {
  }

  /**
   Deadlock freedom: the user operation can always move on within two steps, neither of which
   needs the server or a cancellation. In particular the task that release awaits while holding
   the I/O lock ends at once, because it was cancelled first.
   */
  lemma NoHang(s: State) returns (labels: seq<Label>)
    requires Reachable(s) && !s.user.Idle?
    ensures |labels| <= 2 && Unaided(labels) && Possible(s, labels)
    ensures After(s, labels).user != s.user
  {
    ReachableInv(s);
    labels := MoveOn(s);
  }

  lemma MoveOn(s: State) returns (labels: seq<Label>)
    requires Inv(s) && !s.user.Idle?
    ensures 1 <= |labels| <= 2 && Unaided(labels) && Possible(s, labels) && NoCalls(labels)
    ensures !labels[|labels| - 1].TaskStep?
    ensures After(s, labels).user != s.user
  {
    var u := s.user;
    if u.Opening? || InFlight(u) {
      Extend(Enabled, Step, s, [], Failed);
      labels := [] + [Failed];
      FailedMoves(s);
    } else {
      var before := [];
      if u.RelLock? {
        before := LockHolder(s);
      } else if u.ResetTask? || u.CloseTask? || u.RelTask? {
        before := AwaitedTask(s, u.t);
      }
      Extend(Enabled, Step, s, before, Resumed(false));
      ResumedMoves(After(s, before));
      labels := before + [Resumed(false)];
    }
  }

  lemma {:induction false} SomeOwn(labels: seq<Label>)
    requires labels != [] && !labels[|labels| - 1].TaskStep?
    ensures OwnSteps(labels) >= 1
  {
    if |labels| > 1 { SomeOwn(labels[1..]); }
  }

  lemma {:induction false} Complete(s: State) returns (labels: seq<Label>)
    requires Inv(s) && Clean(s)
    ensures Possible(s, labels) && Unaided(labels) && NoCalls(labels)
    ensures After(s, labels).user.Idle? && Gone(After(s, labels))
    decreases Rank(s.user)
  {
    if s.user.Idle? {
      labels := [];
    } else {
      var first := MoveOn(s);
      SomeOwn(first);
      CleaningRun(s, first);
      var rest := Complete(After(s, first));
      Concat(Enabled, Step, s, first, rest);
      labels := first + rest;
    }
  }

  /** A cleaning operation can always be brought to its end, with a server that never answers again. */
  lemma CleanupCompletes(s: State) returns (labels: seq<Label>)
    requires Reachable(s) && Cleaning(s.user)
    ensures Possible(s, labels) && Unaided(labels) && NoCalls(labels)
    ensures After(s, labels).user.Idle? && Gone(After(s, labels))
  {
    ReachableInv(s);
    labels := Complete(s);
  }
}
