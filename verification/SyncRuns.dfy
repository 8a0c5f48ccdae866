/**
 Runs of the synchronous machine, and the slips in them: the steps with which the user leaves a
 worker behind that still has a write to the instance to come.
 */
module SyncRuns {
  import opened Basics
  import opened Session
  import opened Lifecycle
  import opened SyncMachine
  import opened Runs

  // ----- a worker inside the failure handler or inside _update_lease

  /** Between lines 645 and 646: the connection field is cleared, the token not yet. */
  predicate AtToken(pc: WorkerPc) { pc.Tick? && pc.tp.Failing? && pc.tp.fp.FailTok? }

  /** Inside line 646: the token is cleared, the lease not yet. */
  predicate AtLease(pc: WorkerPc) { pc.Tick? && pc.tp.Failing? && pc.tp.fp.FailLease? }

  /** At line 647: the connection is taken out and not yet closed. */
  predicate Dropping(pc: WorkerPc) { pc.Tick? && pc.tp.Failing? && pc.tp.fp.FailClose? }

  // ----- slips

  /**
   The worker that a step of the user leaves behind: the one whose join is given up in close,
   or the one that holds the I/O lock when close finds neither connection nor thread (lines
   542-544 and 551-554).
   */
  function LeftByClose(s: State, l: Label): WorkerPc {
    if l.UGaveUp? && s.user.Clear? && AtJoin(s.user) then PcAt(s, JoinedThread(s.user))
    else if l.UGo? && s.user.Shut? && s.user.hp.ShutRead? && s.conn.None? && s.thread.None?
            && s.io.Some? && s.io.value.Worker? then PcAt(s, s.io.value.id)
    else WDone
  }

  /** A token slip: the worker left behind has yet to clear the token. */
  predicate TokenSlip(s: State, l: Label) { AtToken(LeftByClose(s, l)) }

  /** A lease slip: the worker left behind has yet to clear the lease. */
  predicate LeaseSlip(s: State, l: Label) { AtLease(LeftByClose(s, l)) }

  /** An update slip: the join of a worker inside _update_lease is given up. */
  predicate UpdateSlip(s: State, l: Label) { l.UGaveUp? && AtJoin(s.user) && PcAt(s, JoinedThread(s.user)).Updating? }

  predicate Slip(s: State, l: Label) { TokenSlip(s, l) || LeaseSlip(s, l) || UpdateSlip(s, l) }

  /** The kinds of slip that a run does without. */
  datatype Without = Without(token: bool, lease: bool, update: bool)

  const NOTHING := Without(false, false, false)
  const TOKEN_SLIPS := Without(true, false, false)
  const CLEARING_SLIPS := Without(true, true, false)
  const TOKEN_AND_UPDATE_SLIPS := Without(true, false, true)
  const ALL_SLIPS := Without(true, true, true)

  predicate Avoids(s: State, l: Label, w: Without) {
    && (w.token ==> !TokenSlip(s, l))
    && (w.lease ==> !LeaseSlip(s, l))
    && (w.update ==> !UpdateSlip(s, l))
  }

  // ----- runs

  function Allowed(w: Without): (State, Label) -> bool { (s, l) => Enabled(s, l) && Avoids(s, l, w) }

  function After(s: State, labels: seq<Label>): State { End(Step, s, labels) }

  predicate Possible(s: State, labels: seq<Label>, w: Without) { Legal(Allowed(w), Step, s, labels) }

  /** s is the end of a run of a fresh instance without slips of these kinds; with NOTHING, of any run. */
  ghost predicate Reachable(s: State, w: Without) {
    exists labels :: Possible(INITIAL, labels, w) && After(INITIAL, labels) == s
  }

  predicate Covers(v: Without, w: Without) { (w.token ==> v.token) && (w.lease ==> v.lease) && (w.update ==> v.update) }

  /** Who does without more kinds does without fewer. */
  lemma Looser(s: State, v: Without, w: Without)
    requires Reachable(s, v) && Covers(v, w)
    ensures Reachable(s, w)
  {
    var labels :| Possible(INITIAL, labels, v) && After(INITIAL, labels) == s;
    Relax(Allowed(v), Allowed(w), Step, INITIAL, labels);
  }

  /** What holds at first and is kept by every allowed step holds in every reachable state. */
  lemma ReachableKeeps(s: State, w: Without, inv: State -> bool)
    requires Reachable(s, w) && inv(INITIAL)
    requires forall t, l :: inv(t) && Enabled(t, l) && Avoids(t, l, w) ==> inv(Next(t, l))
    ensures inv(s)
  {
    var labels :| Possible(INITIAL, labels, w) && After(INITIAL, labels) == s;
    forall t, l | inv(t) && Allowed(w)(t, l) ensures inv(Step(t, l)) {
      assert inv(Next(t, l));
    }
    Invariant(Allowed(w), Step, inv, INITIAL, labels);
  }

  predicate NoCalls(labels: seq<Label>) { forall i :: 0 <= i < |labels| ==> !labels[i].Call? }
}
