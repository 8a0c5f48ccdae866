/**
 Locks, joins and the command mutex of the synchronous client cannot deadlock, and every
 operation can be brought to its end without the server: in every run, slips included.
 */
module SyncProgress {
  import opened Basics
  import opened Session
  import opened Lifecycle
  import opened SyncMachine
  import opened Runs
  import opened SyncRuns
  import opened SyncInvariant
  import opened SyncAlways

  /** Whom the user or a worker waits for: the holder of the lock or mutex it wants, or the thread it joins. */
  function WaitsFor(s: State, who: Who): Option<Who> {
    match who
    case User =>
      if NeedsIoLock(s.user) then s.io
      else if AtSend(s.user) then ConnAt(s, CommandConn(s.user)).busy
      else if AtJoin(s.user) && !PcAt(s, JoinedThread(s.user)).WDone? then Some(Worker(JoinedThread(s.user)))
      else None
    case Worker(i) =>
      if PcAt(s, i).WLock? then s.io
      else if PcAt(s, i).Tick? && PcAt(s, i).tp.Renewing? && PcAt(s, i).tp.np.RenewSend? then ConnAt(s, PcAt(s, i).tp.np.c).busy
      else None
  }

  /** Depth in the lock order: command mutex below I/O lock below join. */
  function Depth(s: State, who: Who): nat {
    match who
    case User =>
      if AtJoin(s.user) then 3 else if NeedsIoLock(s.user) then 2 else if AtSend(s.user) then 1 else 0
    case Worker(i) =>
      if PcAt(s, i).WLock? then 2 else if PcAt(s, i).Tick? && !(AwaitsRenew(PcAt(s, i))) then 1 else 0
  }

  /** Waiting always goes down the lock order, so no cycle of waiting can form: in every run. */
  lemma NoDeadlock(s: State, who: Who)
    requires Reachable(s, NOTHING) && WaitsFor(s, who).Some?
    ensures Depth(s, WaitsFor(s, who).value) < Depth(s, who)
  {
    EveryRun(s);
    WaitsDown(s, who);
  }

  lemma WaitsDown(s: State, who: Who)
    requires Always(s) && WaitsFor(s, who).Some?
    ensures Depth(s, WaitsFor(s, who).value) < Depth(s, who)
  {
    if who.User? && AtSend(s.user) && CommandConn(s.user) < |s.conns| { assert ConnOk(s, CommandConn(s.user)); }
    if who.Worker? && PcAt(s, who.id).Tick? && TickConn(PcAt(s, who.id).tp).Some? && TickConn(PcAt(s, who.id).tp).value < |s.conns| {
      assert ConnOk(s, TickConn(PcAt(s, who.id).tp).value);
    }
    if s.io.Some? && s.io.value.Worker? { assert WorkerOk(s, s.io.value.id); }
  }

  /** A user operation that waits for nobody can take a step. */
  lemma UserCanMove(s: State) returns (l: Label)
    requires !s.user.Idle? && WaitsFor(s, User).None?
    ensures !l.WorkerStep? && Enabled(s, l)
  {
    var u := s.user;
    l := if Deterministic(u) then UGo
         else if AtJoin(u) then UJoined
         else if AtSend(u) then USendFail(true)
         else if AtRecv(u) then UIoFail
         else UDialFail;
  }

  /** A started, unfinished worker that waits for nobody can take a step. */
  lemma WorkerCanMove(s: State, i: nat) returns (ch: WorkerChoice)
    requires i < |s.workers| && !s.workers[i].pc.WDone? && !s.workers[i].pc.WNew? && WaitsFor(s, Worker(i)).None?
    ensures Enabled(s, WorkerStep(i, ch))
  {
    match s.workers[i].pc
    case WWait => ch := Elapsed;
    case Tick(Renewing(RenewSend(_, _))) => ch := SendFail(true);
    case Tick(Renewing(RenewRecv(_, _))) => ch := IoFail;
    case _ => ch := Go;
  }

  /** Steps a stopped worker can still take. */
  function StepsLeft(pc: WorkerPc): nat {
    match pc
    case WDone => 0
    case WAfter(_) => 1
    case Tick(Unlock(_)) => 2
    case Tick(Failing(p)) =>
      (match p case FailClose(_) => 3 case FailLease(_) => 4 case FailTok(_) => 5 case FailConn(_) => 6 case FailChk(_) => 7)
    case Tick(Renewing(p)) => if p.RenewRecv? then 8 else 9
    case Tick(Check(p)) =>
      (match p case ChkTok(_) => 10 case ChkConn => 11 case ChkStop => 12 case ChkClosed => 13)
    case WLock => 14
    case WWait => 15
    case Updating(p, _) => (match p case UpdWrite => 16 case UpdClosed => 17 case UpdTok => 18)
    case WInit => 19
    case WNew => 20
  }

  /** Once its stop event is set, every step of a worker brings it nearer its end: at most twenty remain. */
  lemma StoppedWorkerEnds(s: State, i: nat, ch: WorkerChoice)
    requires i < |s.workers| && s.workers[i].ev in s.raised && Enabled(s, WorkerStep(i, ch))
    ensures StepsLeft(WorkerNext(s, i, ch).workers[i].pc) < StepsLeft(s.workers[i].pc) <= 20
  {
  }

  // ----- to the end, without the server

  /** The step needs no answer of the server, starts no call, and gives up no join. */
  predicate Unaided(l: Label) {
    match l
    case Call(_) => false
    case UGaveUp => false
    case UDialOk => false
    case UHeard(_) => false
    case WorkerStep(_, ch) => !ch.Heard?
    case _ => true
  }

  function Alone(): (State, Label) -> bool { (s, l) => Enabled(s, l) && Unaided(l) }

  ghost predicate Reaches(s: State, t: State) {
    exists labels :: Legal(Alone(), Step, s, labels) && After(s, labels) == t
  }

  lemma Stay(s: State)
    ensures Reaches(s, s)
  {
    assert Legal(Alone(), Step, s, []) && After(s, []) == s;
  }

  lemma Onward(s: State, t: State, l: Label)
    requires Reaches(s, t) && Enabled(t, l) && Unaided(l)
    ensures Reaches(s, Next(t, l))
  {
    var labels :| Legal(Alone(), Step, s, labels) && After(s, labels) == t;
    Extend(Alone(), Step, s, labels, l);
    assert Legal(Alone(), Step, s, labels + [l]) && After(s, labels + [l]) == Next(t, l);
  }

  lemma Through(r: State, s: State, t: State)
    requires Reaches(r, s) && Reaches(s, t)
    ensures Reaches(r, t)
  {
    var a :| Legal(Alone(), Step, r, a) && After(r, a) == s;
    var b :| Legal(Alone(), Step, s, b) && After(s, b) == t;
    Concat(Alone(), Step, r, a, b);
    assert Legal(Alone(), Step, r, a + b) && After(r, a + b) == t;
  }

  /** What the steps of one worker leave as it was. */
  predicate OnlyWorker(s: State, t: State, i: nat) {
    && t.user == s.user && t.raised == s.raised && |t.workers| == |s.workers|
    && forall j :: 0 <= j < |s.workers| && j != i ==> t.workers[j] == s.workers[j]
  }

  /** The next step of a worker that waits for nobody, without the server. */
  function Push(pc: WorkerPc): WorkerChoice {
    match pc
    case WWait => Woken
    case Tick(Renewing(p)) => if p.RenewSend? then SendFail(false) else IoFail
    case _ => Go
  }

  lemma PushWorker(s: State, i: nat) returns (t: State)
    requires Always(s) && i < |s.workers| && !s.workers[i].pc.WNew? && !s.workers[i].pc.WDone?
    requires s.workers[i].pc.WLock? ==> s.io.None?
    requires s.workers[i].ev in s.raised || s.workers[i].pc.Tick?
    ensures t == WorkerNext(s, i, Push(s.workers[i].pc)) && Always(t) && Reaches(s, t) && OnlyWorker(s, t, i)
    ensures t.workers[i].ev == s.workers[i].ev
  {
    var pc := s.workers[i].pc;
    var l := WorkerStep(i, Push(pc));
    assert Enabled(s, l);
    t := Next(s, l);
    NextAlways(s, l);
    Stay(s);
    Onward(s, s, l);
    EffectKeeps(s, i, pc, Push(pc));
  }

  lemma TickEnds(s: State, i: nat)
    requires i < |s.workers| && s.workers[i].pc.Tick?
    ensures var pc := WorkerNext(s, i, Push(s.workers[i].pc)).workers[i].pc;
      (pc.Tick? && StepsLeft(pc) < StepsLeft(s.workers[i].pc)) || (s.workers[i].pc.tp.Unlock? && !pc.Tick?)
  {
  }

  /** The holder of the I/O lock gives it back. */
  lemma {:induction false} FreeLock(s: State, i: nat) returns (t: State)
    requires Always(s) && i < |s.workers| && s.workers[i].pc.Tick?
    ensures Always(t) && Reaches(s, t) && OnlyWorker(s, t, i) && t.io.None?
    decreases StepsLeft(s.workers[i].pc)
  {
    var u := PushWorker(s, i);
    TickEnds(s, i);
    if u.workers[i].pc.Tick? {
      t := FreeLock(u, i);
      Through(s, u, t);
    } else {
      t := u;
      assert WorkerOk(s, i);
    }
  }

  /** A stopped worker ends. */
  lemma {:induction false} EndWorker(s: State, i: nat) returns (t: State)
    requires Always(s) && !HasLock(s.user) && i < |s.workers| && !s.workers[i].pc.WNew? && s.workers[i].ev in s.raised
    ensures Always(t) && Reaches(s, t) && t.user == s.user && PcAt(t, i).WDone?
    decreases StepsLeft(s.workers[i].pc)
  {
    if s.workers[i].pc.WDone? {
      t := s;
      Stay(s);
    } else {
      var f := s;
      Stay(s);
      if s.workers[i].pc.WLock? && s.io.Some? {
        assert WorkerOk(s, s.io.value.id);
        f := FreeLock(s, s.io.value.id);
      }
      var u := PushWorker(f, i);
      StoppedWorkerEnds(f, i, Push(f.workers[i].pc));
      Through(s, f, u);
      t := EndWorker(u, i);
      Through(s, u, t);
    }
  }

  function AfterRank(th: Then): nat { if th.Rearm? then 3 else 0 }

  /** An upper bound of the steps that the operation has to take when nothing answers. */
  function Rank(u: UserPc): nat {
    match u
    case Idle => 0
    case Stop(p, _) => (match p case StopCheck => 23 case StopSet => 22 case StopJoin(_) => 21 case StopClear => 20)
    case Rel(p) =>
      (match p case RelLock => 19 case RelConn => 18 case RelTok(_) => 17 case RelSend(_, _) => 16 case RelRecv(_, _) => 16 case RelUnlock(_) => 15)
    case Cls(p, th) => (match p case ClsCheck => 14 case ClsFlag => 13 case ClsSet => 12) + AfterRank(th)
    case Shut(p, th) =>
      (match p case ShutRead => 11 case ShutDown(_) => 10 case ShutLock(_) => 9 case ShutClose(_) => 8 case ShutUnlock(_) => 7 case ShutDetach(_) => 6)
      + AfterRank(th)
    case Clear(p, th) =>
      (match p case ClrRead => 5 case ClrJoin(_) => 4 case ClrThread => 3 case ClrTok => 2 case ClrLease => 1) + AfterRank(th)
    case Rearming(p, _) => if p.RearmFlag? then 3 else 2
    case Opening(p, _) =>
      (match p case Dial => 1 case AuthSend(_) => 2 case AuthRecv(_) => 2 case AuthClose(_) => 1 case Adopt(_) => 17 case Require => 16)
    case WaitTok => 17
    case WaitConn => 16
    case Invoke(_, _) => 15
    case Grant(p, _) => (match p case PutTok(_, _) => 4 case PutLease(_) => 3 case Start => 2 case Started(_) => 1)
  }

  /** The user's own step when nothing answers. */
  function Press(u: UserPc): Label {
    if Deterministic(u) then UGo
    else if AtJoin(u) then UJoined
    else if AtSend(u) then USendFail(false)
    else if AtRecv(u) then UIoFail
    else UDialFail
  }

  lemma CloseDescends(s: State)
    requires Deterministic(s.user) && (s.user.Cls? || s.user.Shut? || s.user.Clear?)
    ensures Rank(UserGo(s).user) < Rank(s.user)
  {
  }

  lemma GoDescends(s: State)
    requires Deterministic(s.user)
    ensures Rank(UserGo(s).user) < Rank(s.user)
  {
    if s.user.Cls? || s.user.Shut? || s.user.Clear? { CloseDescends(s); }
  }

  lemma PressDescends(s: State)
    requires !s.user.Idle? && UserEnabled(s, Press(s.user))
    ensures Rank(UserNext(s, Press(s.user)).user) < Rank(s.user)
  {
    if Deterministic(s.user) { GoDescends(s); }
  }

  lemma PressUser(s: State) returns (t: State)
    requires Always(s) && !s.user.Idle? && UserEnabled(s, Press(s.user))
    ensures Always(t) && Reaches(s, t) && Rank(t.user) < Rank(s.user)
  {
    t := UserNext(s, Press(s.user));
    PressDescends(s);
    UserAlways(s, Press(s.user));
    Stay(s);
    Onward(s, s, Press(s.user));
  }

  /** First whoever the user waits for is brought out of the way, then the user takes a step. */
  lemma Advance(s: State) returns (t: State)
    requires Always(s) && !s.user.Idle?
    ensures Always(t) && Reaches(s, t) && Rank(t.user) < Rank(s.user)
  {
    var f := s;
    Stay(s);
    if AtJoin(s.user) {
      var i := JoinedThread(s.user);
      AllRaised(s);
      assert WorkerOk(s, i);
      f := EndWorker(s, i);
    } else if NeedsIoLock(s.user) && s.io.Some? {
      assert WorkerOk(s, s.io.value.id);
      f := FreeLock(s, s.io.value.id);
    }
    t := PressUser(f);
    Through(s, f, t);
  }

  lemma {:induction false} Complete(s: State) returns (t: State)
    requires Always(s)
    ensures Reaches(s, t) && t.user.Idle?
    decreases Rank(s.user)
  {
    if s.user.Idle? {
      t := s;
      Stay(s);
    } else {
      var u := Advance(s);
      t := Complete(u);
      Through(s, u, t);
    }
  }

  /**
   In every reachable state the operation can be brought to its end with a server that never
   answers again and without giving up a join: the workers it joins end, since their events are
   set first, and whoever holds the I/O lock gives it back.
   */
  lemma EveryCallCompletes(s: State) returns (labels: seq<Label>)
    requires Reachable(s, NOTHING)
    ensures Possible(s, labels, NOTHING) && After(s, labels).user.Idle?
    ensures forall i :: 0 <= i < |labels| ==> Unaided(labels[i])
  {
    EveryRun(s);
    var t := Complete(s);
    labels :| Legal(Alone(), Step, s, labels) && After(s, labels) == t;
    Relax(Alone(), Allowed(NOTHING), Step, s, labels);
    OnlyUnaided(s, labels);
  }

  lemma {:induction false} OnlyUnaided(s: State, labels: seq<Label>)
    requires Legal(Alone(), Step, s, labels)
    ensures forall i :: 0 <= i < |labels| ==> Unaided(labels[i])
    decreases |labels|
  {
    if labels != [] {
      OnlyUnaided(Step(s, labels[0]), labels[1..]);
      forall i | 0 <= i < |labels| ensures Unaided(labels[i]) {
        assert i > 0 ==> labels[i] == labels[1..][i - 1];
      }
    }
  }
}
