/**
 Where the theorems of SyncTheorems and SyncLease end. Each holds as long as no slip of certain kinds
 has happened, and a step is of those kinds if and only if some continuation, without any further
 slip and without giving up a join, breaks the theorem. Here for isolation and slips of any kind;
 SyncSlipKinds takes the kinds one by one.
 */
module SyncSlip {
  import opened Basics
  import opened Session
  import opened Lifecycle
  import opened SyncMachine
  import opened SyncRuns
  import opened SyncPaths
  import opened SyncInvariant
  import opened SyncTheorems
  import opened SyncLease

  /** Some continuation comes to a state of this kind. */
  ghost predicate Ahead(s: State, bad: State -> bool) { exists t :: Leads(s, t) && bad(t) }

  lemma Here(s: State, t: State, bad: State -> bool)
    requires Leads(s, t) && bad(t)
    ensures Ahead(s, bad)
  {
  }

  lemma Later(s: State, t: State, bad: State -> bool)
    requires Leads(s, t) && Ahead(t, bad)
    ensures Ahead(s, bad)
  {
    var u :| Leads(t, u) && bad(u);
    Join(s, t, u);
  }

  // ----- what can go wrong

  /** A worker of an earlier attempt writes the fields, or sends or reads on a connection. */
  predicate StaleWrite(s: State, l: Label) { OfOldAttempt(s, l) && Enabled(s, l) && Tampers(s, l) }

  ghost predicate Exposed(s: State) { exists l :: StaleWrite(s, l) }

  /** The same, when only the lease is written not counted. */
  predicate StaleTake(s: State, l: Label) {
    OfOldAttempt(s, l) && Enabled(s, l)
    && (Next(s, l).conn != s.conn || Next(s, l).token != s.token || StepEmission(s, l).Emitted?)
  }

  ghost predicate TokenExposed(s: State) { exists l :: StaleTake(s, l) }

  ghost predicate OldHandler(s: State) {
    exists i :: 0 <= i < |s.workers| && (Past(s.workers[i].pc) || AtToken(s.workers[i].pc)) && s.workers[i].ev != s.attempt
  }

  /** The frames on some connection are no session. */
  ghost predicate SessionBroken(s: State) { exists c :: 0 <= c < |s.conns| && Run(s.conns[c].trace) == Bad }

  ghost predicate TwoLive(s: State) { exists i: nat, j: nat :: i < j < |s.workers| && Live(s, i) && Live(s, j) }

  ghost predicate Incoherent(s: State) { s.user.Idle? && s.io.None? && s.token.Some? && !Coherent(s) }

  predicate Misstep(s: State, l: Label) { Enabled(s, l) && !Refines(s, l, Next(s, l)) }

  ghost predicate OffTrack(s: State) { exists l :: Misstep(s, l) }

  predicate FalseReturn(s: State, l: Label) {
    Enabled(s, l) && !l.WorkerStep? && !s.user.Idle? && Next(s, l).user.Idle? && !Returned(s.user, Next(s, l))
  }

  ghost predicate Misleading(s: State) { exists l :: FalseReturn(s, l) }

  predicate LeaseLost(s: State) { s.user.Idle? && s.token.Some? && !InRange(s.lease) }

  predicate LeaseLeft(s: State) { s.user.Idle? && s.closed && s.lease != 0 }

  // ----- from the slip to the next grant

  /** A worker that still has a write to the instance to come. */
  predicate Straggling(pc: WorkerPc) { pc.Updating? || AtToken(pc) || AtLease(pc) }

  /** The next attempt has its grant, and worker i of an earlier one is still at pc. */
  predicate Beside(s: State, i: nat, pc: WorkerPc, lease: int) {
    && s.user.Grant? && s.user.gp.Start? && !s.user.cmd.CmdWait? && !s.closed && s.thread.None?
    && s.conn.Some? && s.conn.value < |s.conns| && Writable(s, s.conn.value) && ConnAt(s, s.conn.value).phase == Holding("t")
    && s.token == Some("t") && s.lease == lease && s.attempt !in s.raised
    && i < |s.workers| && s.workers[i].pc == pc && s.workers[i].ev < s.attempt
    && (if pc.Tick? && pc.tp.Failing? then s.io == Some(Worker(i)) && pc.tp.fp.c < s.conn.value else s.io.None?)
  }

  lemma GrantedBeside(s: State, t: State, op: Op, th: Then, i: nat, lease: int)
    requires Finished(s, th) && i < |s.workers| && s.workers[i].ev <= s.attempt && s.attempt + 1 !in s.raised
    requires if s.workers[i].pc.Tick? && s.workers[i].pc.tp.Failing? then s.io == Some(Worker(i)) && s.workers[i].pc.tp.fp.c < |s.conns| else s.io.None?
    requires t == s.(closed := false, attempt := s.attempt + 1, conn := Some(|s.conns|), token := Some("t"), lease := lease,
                     conns := s.conns + [Exchanged(Conn(true, false, None, [], Fresh), CmdFrame(CmdOf(op)), Granted("t", lease))],
                     user := Grant(Start, CmdOf(op)))
    ensures Beside(t, i, s.workers[i].pc, lease)
  {
  }

  /** From a finished close to the grant of the next attempt. */
  lemma Regrant(s: State, th: Then, i: nat, lease: int) returns (t: State)
    requires Finished(s, th) && i < |s.workers| && s.workers[i].ev <= s.attempt && s.attempt + 1 !in s.raised
    requires Straggling(s.workers[i].pc) && InRange(lease)
    requires if s.workers[i].pc.Tick? then s.io == Some(Worker(i)) && s.workers[i].pc.tp.fp.c < |s.conns| else s.io.None?
    ensures Leads(s, t) && Beside(t, i, s.workers[i].pc, lease)
  {
    var u, op := AfterClosePath(s, th);
    t := GrantPath(u, op, "t", lease);
    GrantedBeside(s, t, op, th, i, lease);
    Join(s, u, t);
  }

  /** Before a worker inside _update_lease is left behind the others are out of the way. */
  lemma LockFreed(s: State, i: nat) returns (t: State)
    requires Inv(s) && AtJoin(s.user) && i < |s.workers| && s.workers[i].pc.Updating? && s.thread == Some(i)
    ensures var n := LeaveJoin(s);
      Leads(n, t) && t == n.(lease := t.lease, io := None, conns := t.conns, workers := t.workers)
      && |t.conns| == |s.conns| && |t.workers| == |s.workers| && t.workers[i] == s.workers[i]
  {
    var n := LeaveJoin(s);
    forall j | 0 <= j < |n.workers| && j != i ensures StalePc(n.workers[j].pc) && n.workers[j].ev in n.raised {
      assert s.workers[j].ev < s.workers[i].ev;
    }
    t := FreeLock(n, i);
  }

  /** The close in which the slip happens is finished. */
  lemma SlipCloses(s: State, l: Label, i: nat) returns (t: State, th: Then)
    requires Inv(s) && Enabled(s, l) && s.user.Clear? && l.UGaveUp? && i == JoinedThread(s.user) && Slip(s, l)
    ensures Leads(Next(s, l), t) && Finished(t, th) && i < |t.workers| && t.workers[i] == s.workers[i]
    ensures t.attempt == s.attempt && t.raised == s.raised && |t.conns| == |s.conns|
    ensures t.io == if PcAt(s, i).Updating? then None else s.io
  {
    var n := Next(s, l);
    Stay(n);
    var f := n;
    if PcAt(s, i).Updating? { f := LockFreed(s, i); }
    th := s.user.th;
    t := ClearRest(f, th);
    Join(n, f, t);
  }

  /** The same for a join given up in _stop_renew. */
  lemma SlipStops(s: State, l: Label, i: nat) returns (t: State, th: Then)
    requires Inv(s) && Enabled(s, l) && s.user.Stop? && l.UGaveUp? && i == JoinedThread(s.user) && UpdateSlip(s, l) && s.conn.Some?
    ensures Leads(Next(s, l), t) && Finished(t, th) && i < |t.workers| && t.workers[i] == s.workers[i]
    ensures t.attempt == s.attempt && t.raised == s.raised + {s.attempt} && t.io.None?
  {
    var n := Next(s, l);
    var f := LockFreed(s, i);
    t, th := StopPath(f, s.user.k);
    Join(n, f, t);
  }

  /** The same when close finds neither connection nor thread. */
  lemma SlipFinds(s: State, i: nat) returns (t: State, th: Then)
    requires Inv(s) && Enabled(s, UGo) && Slip(s, UGo) && i == s.io.value.id
    ensures Leads(Next(s, UGo), t) && Finished(t, th) && t.workers == s.workers && t.io == Some(Worker(i))
    ensures t.attempt == s.attempt && t.raised == s.raised && |t.conns| == |s.conns|
  {
    th := s.user.th;
    t := ClearPath(Next(s, UGo), th);
  }

  /** The worker that the step leaves behind. */
  function Straggler(s: State, l: Label): nat
    requires Slip(s, l)
  {
    if l.UGaveUp? then JoinedThread(s.user) else s.io.value.id
  }

  /** After a slip the next attempt can come as far as its grant without the worker left behind moving. */
  lemma Overtaken(s: State, l: Label, lease: int) returns (t: State)
    requires Inv(s) && Enabled(s, l) && Slip(s, l) && (s.user.Stop? ==> s.conn.Some?) && InRange(lease)
    ensures Leads(Next(s, l), t) && Beside(t, Straggler(s, l), PcAt(s, Straggler(s, l)), lease)
  {
    var n := Next(s, l);
    var i := Straggler(s, l);
    var f, th;
    if l.UGo? {
      f, th := SlipFinds(s, i);
    } else if s.user.Clear? {
      f, th := SlipCloses(s, l, i);
    } else {
      f, th := SlipStops(s, l, i);
    }
    t := Regrant(f, th, i, lease);
    Join(n, f, t);
  }

  // ----- any slip exposes the next attempt

  lemma WritesNow(s: State, i: nat)
    requires i < |s.workers| && s.workers[i].ev < s.attempt && s.token.Some? && s.lease != 0
    requires AtToken(s.workers[i].pc) || AtLease(s.workers[i].pc)
      || (s.workers[i].pc.Updating? && s.workers[i].pc.up.UpdWrite? && s.workers[i].pc.rem != s.lease)
    ensures StaleWrite(s, WorkerStep(i, Go))
  {
  }

  /** An update left behind goes on to its write, since the new attempt holds a token. */
  lemma UpdateGoesOn(s: State, i: nat) returns (t: State)
    requires i < |s.workers| && s.workers[i].pc.Updating? && s.token.Some? && !s.closed
    ensures Leads(s, t)
    ensures t == s.(workers := s.workers[i := s.workers[i].(pc := Updating(UpdWrite, s.workers[i].pc.rem))])
  {
    Stay(s);
    t := s;
    if s.workers[i].pc.up.UpdTok? { t := Take(s, t, WorkerStep(i, Go)); }
    if t.workers[i].pc.up.UpdClosed? { t := Take(s, t, WorkerStep(i, Go)); }
  }

  lemma SlipExposes(s: State, l: Label)
    requires Inv(s) && Enabled(s, l) && Slip(s, l) && (s.user.Stop? ==> s.conn.Some?)
    ensures Ahead(Next(s, l), Exposed)
  {
    var i := Straggler(s, l);
    var pc := PcAt(s, i);
    var g := Overtaken(s, l, if pc.Updating? && pc.rem == 1 then 2 else 1);
    var t := g;
    Stay(g);
    if pc.Updating? { t := UpdateGoesOn(g, i); }
    WritesNow(t, i);
    Here(g, t, Exposed);
    Later(Next(s, l), g, Exposed);
  }

  /** A slip of any kind is exactly a step after which stale-worker isolation can fail. */
  lemma SlipIsExact(s: State, l: Label)
    requires Reachable(s, ALL_SLIPS) && Enabled(s, l)
    ensures Slip(s, l) <==> Ahead(Next(s, l), Exposed)
  {
    if Slip(s, l) {
      Looser(s, ALL_SLIPS, TOKEN_AND_UPDATE_SLIPS);
      ReachableZeroed(s);
      if UpdateSlip(s, l) { assert UpdaterOk(s, JoinedThread(s.user)); }
      SlipExposes(s, l);
    } else {
      StepOn(s, l, ALL_SLIPS);
      forall t | Leads(Next(s, l), t) ensures !Exposed(t) {
        LedOn(Next(s, l), t, ALL_SLIPS);
        forall m | OfOldAttempt(t, m) && Enabled(t, m) ensures !Tampers(t, m) { StaleIsolation(t, m); }
      }
    }
  }
}
