/**
 The lease field of the synchronous client. It stays in range while a token is held unless a
 token or lease slip happens, and zero after a close unless a token or update slip happens.
 Without any slip an old worker leaves it alone as well.
 */
module SyncLease {
  import opened Basics
  import opened Session
  import opened Lifecycle
  import opened SyncMachine
  import opened SyncRuns
  import opened SyncInvariant
  import opened SyncTheorems

  // ----- in range while a token is held

  predicate InRange(n: int) { 1 <= n <= MAX_PROTOCOL_SECONDS }

  predicate LeaseOk(s: State) {
    && (s.token.Some? && !(s.user.Grant? && s.user.gp.PutLease?) ==> InRange(s.lease))
    && (s.user.Grant? && (s.user.gp.PutTok? || s.user.gp.PutLease?) ==> InRange(s.user.gp.lease))
  }

  /** A worker that has yet to clear the lease belongs to the current attempt, which holds nothing, and is not left behind. */
  predicate ClearerOk(s: State, i: nat) {
    AtLease(PcAt(s, i)) && i < |s.workers| ==>
      && s.workers[i].ev == s.attempt && s.token.None? && FailZone(s.user)
      && (s.thread.Some? || NoThread(s.user)) && (s.closed ==> ClosingZone(s.user))
  }

  ghost predicate Bounded(s: State) {
    LeaseOk(s) && forall i :: 0 <= i < |s.workers| ==> ClearerOk(s, i)
  }

  lemma ZoneKeptByGo(s: State, i: nat)
    requires Inv(s) && i < |s.workers| && AtLease(s.workers[i].pc) && ClearerOk(s, i)
    requires UserEnabled(s, UGo) && !LeaseSlip(s, UGo)
    ensures ClearerOk(UserGo(s), i)
  {
    assert s.io == Some(Worker(i)) && i == |s.workers| - 1;
  }

  /** While its failure handler is at the lease the user operation stays where it may find it. */
  lemma ZoneKept(s: State, i: nat, l: Label)
    requires Inv(s) && i < |s.workers| && AtLease(s.workers[i].pc) && ClearerOk(s, i)
    requires !l.WorkerStep? && UserEnabled(s, l) && !LeaseSlip(s, l)
    ensures ClearerOk(UserNext(s, l), i)
  {
    if l.UGo? {
      ZoneKeptByGo(s, i);
    } else {
      assert s.io == Some(Worker(i)) && i == |s.workers| - 1;
    }
  }

  /** A step that moves neither token nor lease and starts no grant. */
  lemma SameLease(s: State, t: State)
    requires LeaseOk(s) && t.token == s.token && t.lease == s.lease && (t.user.Grant? ==> t.user == s.user)
    requires s.user.Grant? && s.user.gp.PutLease? ==> t.user == s.user
    ensures LeaseOk(t)
  {
  }

  lemma ClearLease(s: State)
    requires Hands(s) && LeaseOk(s) && s.user.Clear? && !s.user.lp.ClrJoin?
    ensures LeaseOk(ClearGo(s, s.user.lp, s.user.th))
  {
  }

  lemma GrantLease(s: State)
    requires LeaseOk(s) && s.user.Grant?
    ensures LeaseOk(GrantGo(s, s.user.gp, s.user.cmd))
  {
  }

  lemma GoLease(s: State)
    requires Hands(s) && LeaseOk(s) && Deterministic(s.user)
    ensures LeaseOk(UserGo(s))
  {
    if s.user.Clear? {
      ClearLease(s);
    } else if s.user.Grant? {
      GrantLease(s);
    } else {
      SameLease(s, UserGo(s));
    }
  }

  /** A grant that is read is in range, and comes where nothing is held. */
  lemma HeardLease(s: State, r: Reply)
    requires Hands(s) && LeaseOk(s) && AtRecv(s.user) && ReplyInBounds(r)
    ensures LeaseOk(UserHeard(s, r))
  {
  }

  lemma UserLease(s: State, l: Label)
    requires Hands(s) && LeaseOk(s) && !l.WorkerStep? && UserEnabled(s, l)
    ensures LeaseOk(UserNext(s, l))
  {
    if l.UGo? {
      GoLease(s);
    } else if l.UHeard? {
      HeardLease(s, l.r);
    } else {
      SameLease(s, UserNext(s, l));
    }
  }

  /** A user step moves no worker but the new one. */
  lemma UserWorkers(s: State, l: Label, i: nat)
    requires !l.WorkerStep? && UserEnabled(s, l) && (AtLease(PcAt(UserNext(s, l), i)) || PcAt(UserNext(s, l), i).Updating?)
    ensures PcAt(UserNext(s, l), i) == PcAt(s, i)
  {
  }

  lemma UserBounded(s: State, l: Label)
    requires Inv(s) && Bounded(s) && !l.WorkerStep? && UserEnabled(s, l) && !LeaseSlip(s, l)
    ensures Bounded(UserNext(s, l))
  {
    UserLease(s, l);
    var t := UserNext(s, l);
    forall i | 0 <= i < |t.workers| ensures ClearerOk(t, i) {
      if AtLease(PcAt(t, i)) {
        UserWorkers(s, l, i);
        assert ClearerOk(s, i);
        ZoneKept(s, i, l);
      }
    }
  }

  /** What a worker does to token and lease. */
  lemma WorkerLease(s: State, i: nat, pc: WorkerPc, ch: WorkerChoice)
    requires LeaseOk(s) && RemainingInBounds(pc) && (AtLease(pc) ==> s.token.None?) && (AtToken(pc) ==> FailZone(s.user))
    ensures LeaseOk(WorkerEffect(s, i, pc, ch))
    ensures s.token.None? ==> WorkerEffect(s, i, pc, ch).token.None?
  {
  }

  /** When a worker gets to clear the lease it has just cleared the token, and belongs to the current attempt. */
  lemma ClearerComes(s: State, i: nat, ch: WorkerChoice)
    requires Inv(s) && i < |s.workers| && AtToken(s.workers[i].pc) && s.workers[i].ev == s.attempt
    ensures ClearerOk(WorkerNext(s, i, ch), i)
  {
    assert Current(s, s.workers[i].pc);
  }

  lemma OnlyClearer(pc: WorkerPc, s: State, stopped: bool, ch: WorkerChoice)
    requires AtLease(WorkerGoes(s, pc, stopped, ch))
    ensures AtToken(pc)
  {
  }

  lemma WorkerBounded(s: State, i: nat, ch: WorkerChoice)
    requires Inv(s) && Bounded(s) && i < |s.workers| && WorkerEnabled(s, s.workers[i].pc, s.workers[i].ev in s.raised, ch)
    ensures Bounded(WorkerNext(s, i, ch))
  {
    var pc := s.workers[i].pc;
    var u := WorkerEffect(s, i, pc, ch);
    var t := WorkerNext(s, i, ch);
    EffectKeeps(s, i, pc, ch);
    assert ClearerOk(s, i) && (s.workers[i].ev < s.attempt ==> StalePc(pc));
    WorkerLease(s, i, pc, ch);
    forall j | 0 <= j < |t.workers| ensures ClearerOk(t, j) {
      assert ClearerOk(s, j);
      if j == i && AtLease(t.workers[i].pc) {
        OnlyClearer(pc, s, s.workers[i].ev in s.raised, ch);
        ClearerComes(s, i, ch);
      }
    }
  }

  ghost predicate LeaseInv(s: State) { Inv(s) && Bounded(s) }

  lemma ReachableBounded(s: State)
    requires Reachable(s, CLEARING_SLIPS)
    ensures LeaseInv(s)
  {
    InitialInv();
    forall t, l | LeaseInv(t) && Enabled(t, l) && Avoids(t, l, CLEARING_SLIPS) ensures LeaseInv(Next(t, l)) {
      NextKeeps(t, l);
      if l.WorkerStep? { WorkerBounded(t, l.i, l.choice); } else { UserBounded(t, l); }
    }
    ReachableKeeps(s, CLEARING_SLIPS, t => LeaseInv(t));
  }

  /** Without token and lease slips the lease of a held token is in range between operations. */
  lemma HeldLease(s: State)
    requires Reachable(s, CLEARING_SLIPS) && s.user.Idle? && s.token.Some?
    ensures 1 <= s.lease <= MAX_PROTOCOL_SECONDS
  {
    ReachableBounded(s);
  }

  // ----- zero after a close

  predicate ZeroOk(s: State) { s.closed && !ClosingZone(s.user) ==> s.lease == 0 }

  /**
   A worker inside _update_lease is the instance's thread, its join has not been given up, and the
   connection is taken away by close only.
   */
  predicate UpdaterOk(s: State, i: nat) {
    PcAt(s, i).Updating? && i < |s.workers| ==>
      s.workers[i].ev == s.attempt && s.thread == Some(i) && !LetsGo(s.user) && (s.conn.Some? || s.user.Clear?)
  }

  ghost predicate Zeroed(s: State) {
    ZeroOk(s) && forall i :: 0 <= i < |s.workers| ==> UpdaterOk(s, i)
  }

  lemma UpdaterStays(s: State, i: nat)
    requires Inv(s) && i < |s.workers| && s.workers[i].pc.Updating? && UpdaterOk(s, i) && UserEnabled(s, UGo)
    ensures UpdaterOk(UserGo(s), i)
  {
  }

  lemma UpdaterKept(s: State, i: nat, l: Label)
    requires Inv(s) && i < |s.workers| && s.workers[i].pc.Updating? && UpdaterOk(s, i)
    requires !l.WorkerStep? && UserEnabled(s, l) && !UpdateSlip(s, l)
    ensures UpdaterOk(UserNext(s, l), i)
  {
    if l.UGo? { UpdaterStays(s, i); }
  }

  lemma SameZero(s: State, t: State)
    requires ZeroOk(s) && t.closed == s.closed && t.lease == s.lease && ClosingZone(s.user) == ClosingZone(t.user)
    ensures ZeroOk(t)
  {
  }

  lemma CloseZero(s: State)
    requires ZeroOk(s) && (s.user.Cls? || s.user.Shut? || (s.user.Clear? && !s.user.lp.ClrJoin?))
    ensures ZeroOk(UserGo(s))
  {
  }

  lemma GoZero(s: State)
    requires ZeroOk(s) && Deterministic(s.user) && (s.user.Grant? ==> !s.closed)
    ensures ZeroOk(UserGo(s))
  {
    if s.user.Cls? || s.user.Shut? || s.user.Clear? {
      CloseZero(s);
    } else if !s.user.Rearming? && !s.user.Grant? {
      SameZero(s, UserGo(s));
    }
  }

  lemma UserZero(s: State, l: Label)
    requires Inv(s) && ZeroOk(s) && !l.WorkerStep? && UserEnabled(s, l)
    ensures ZeroOk(UserNext(s, l))
  {
    if l.UGo? { GoZero(s); } else { SameZero(s, UserNext(s, l)); }
  }

  lemma UserZeroed(s: State, l: Label)
    requires Inv(s) && Zeroed(s) && !l.WorkerStep? && UserEnabled(s, l) && !UpdateSlip(s, l)
    ensures Zeroed(UserNext(s, l))
  {
    UserZero(s, l);
    var t := UserNext(s, l);
    forall i | 0 <= i < |t.workers| ensures UpdaterOk(t, i) {
      if PcAt(t, i).Updating? {
        UserWorkers(s, l, i);
        assert UpdaterOk(s, i);
        UpdaterKept(s, i, l);
      }
    }
  }

  lemma WorkerZeroed(s: State, i: nat, ch: WorkerChoice)
    requires Inv(s) && Zeroed(s) && i < |s.workers| && WorkerEnabled(s, s.workers[i].pc, s.workers[i].ev in s.raised, ch)
    ensures Zeroed(WorkerNext(s, i, ch))
  {
    var t := WorkerNext(s, i, ch);
    EffectKeeps(s, i, s.workers[i].pc, ch);
    assert UpdaterOk(s, i);
    forall j | 0 <= j < |t.workers| ensures UpdaterOk(t, j) { assert UpdaterOk(s, j); }
  }

  ghost predicate ZeroInv(s: State) { Inv(s) && Zeroed(s) }

  lemma ReachableZeroed(s: State)
    requires Reachable(s, TOKEN_AND_UPDATE_SLIPS)
    ensures ZeroInv(s)
  {
    InitialInv();
    forall t, l | ZeroInv(t) && Enabled(t, l) && Avoids(t, l, TOKEN_AND_UPDATE_SLIPS) ensures ZeroInv(Next(t, l)) {
      NextKeeps(t, l);
      if l.WorkerStep? { WorkerZeroed(t, l.i, l.choice); } else { UserZeroed(t, l); }
    }
    ReachableKeeps(s, TOKEN_AND_UPDATE_SLIPS, t => ZeroInv(t));
  }

  /** Without token and update slips the lease is zero after a finished close. */
  lemma ClosedLease(s: State)
    requires Reachable(s, TOKEN_AND_UPDATE_SLIPS) && s.user.Idle? && s.closed
    ensures s.lease == 0
  {
    ReachableZeroed(s);
  }

  // ----- isolation of every field

  /** The step writes the connection, token or lease field, or puts an event in a trace. */
  predicate Tampers(s: State, l: Label)
    requires Enabled(s, l)
  {
    var t := Next(s, l);
    t.conn != s.conn || t.token != s.token || t.lease != s.lease || StepEmission(s, l).Emitted?
  }

  /**
   Stale-worker isolation: without slips a worker of an earlier attempt writes nothing, sends nothing, and
   leaves the new connection alone.
   */
  lemma StaleIsolation(s: State, l: Label)
    requires Reachable(s, ALL_SLIPS) && Enabled(s, l) && OfOldAttempt(s, l)
    ensures !Tampers(s, l)
    ensures s.conn.Some? ==> ConnAt(Next(s, l), s.conn.value) == ConnAt(s, s.conn.value)
    ensures s.user.Opening? && UserConn(s.user).Some? ==>
      ConnAt(Next(s, l), UserConn(s.user).value) == ConnAt(s, UserConn(s.user).value)
  {
    Looser(s, ALL_SLIPS, CLEARING_SLIPS);
    Looser(s, ALL_SLIPS, TOKEN_AND_UPDATE_SLIPS);
    ReachableBounded(s);
    ReachableZeroed(s);
    assert ClearerOk(s, l.i) && UpdaterOk(s, l.i);
    OldWorkerQuiet(s, l);
  }
}
