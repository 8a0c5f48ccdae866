/**
 The timing of the renew loop, with a real number for Python's float ratio. Times are
 measured where the server handles a grant or a renew; a delay collects everything between
 two sleeps: the reply's way back, scheduling, locks, and the next renew's way to the server.
 */
module Renewal {
  import opened Basics

  const DEFAULT_LEASE_FALLBACK: int := 30

  /** At least a second. */
  function AtLeastOne(x: real): real { if x > 1.0 then x else 1.0 }

  function Seconds(lease: int): real { (if lease > 0 then lease else DEFAULT_LEASE_FALLBACK) as real }

  /** renew_interval. */
  function RenewInterval(lease: int, ratio: real): real { AtLeastOne(Seconds(lease) * ratio) }

  lemma Scaled(x: real, y: real, ratio: real)
    requires x <= y && ratio > 0.0
    ensures x * ratio <= y * ratio
  {
    assert (y - x) * ratio >= 0.0;
  }

  lemma Shrunk(x: real, ratio: real)
    requires x > 0.0 && ratio < 1.0
    ensures x * ratio < x
  {
    assert x * (1.0 - ratio) > 0.0;
  }

  /** At least a second, less than any lease above one second; an unknown lease counts as thirty seconds. */
  lemma IntervalShape(lease: int, ratio: real)
    requires 0.0 < ratio < 1.0
    ensures RenewInterval(lease, ratio) >= 1.0
    ensures lease >= 2 ==> RenewInterval(lease, ratio) < lease as real
    ensures lease <= 0 ==> RenewInterval(lease, ratio) == RenewInterval(30, ratio)
  {
    Shrunk(Seconds(lease), ratio);
    if lease <= 0 { assert Seconds(lease) == Seconds(30); }
  }

  /** The interval in numbers: the part of the lease, but no less than a second; 30 seconds stand for an unknown lease. */
  lemma IntervalValues(lease: int, ratio: real)
    requires 0.0 < ratio < 1.0
    ensures lease >= 1 && lease as real * ratio >= 1.0 ==> RenewInterval(lease, ratio) == lease as real * ratio
    ensures lease >= 1 && lease as real * ratio <= 1.0 ==> RenewInterval(lease, ratio) == 1.0
    ensures RenewInterval(1, ratio) == 1.0 && RenewInterval(2, 0.5) == 1.0 && RenewInterval(33, 0.5) == 16.5
    ensures lease <= 0 ==> RenewInterval(lease, 0.5) == 15.0
  {
    Shrunk(1.0, ratio);
  }

  /** A longer lease is not renewed more often. */
  lemma IntervalGrows(lease: int, longer: int, ratio: real)
    requires 0.0 < ratio && 0 < lease <= longer
    ensures RenewInterval(lease, ratio) <= RenewInterval(longer, ratio)
  {
    Scaled(Seconds(lease), Seconds(longer), ratio);
  }

  /** One turn of the loop: the stop event ended the sleep, or a tick ran and the event was looked at again. */
  datatype Turn = Woken | Ticked(result: Option<int>, stopped: bool)

  /** The loop goes on after this turn. */
  predicate GoesOn(t: Turn) { t.Ticked? && t.result.Some? && !t.stopped }

  /** It ends when the event is raised, in the sleep or after the tick, and when a tick reports nothing. */
  lemma EndsTurn(remaining: int, stopped: bool)
    ensures !GoesOn(Woken) && !GoesOn(Ticked(None, stopped))
    ensures !GoesOn(Ticked(Some(remaining), true)) && GoesOn(Ticked(Some(remaining), false))
  {
  }

  /**
   The intervals the loop sleeps, one after another, as far as the turns are known: one more after each
   turn, as long as it goes on.
   */
  function Sleeps(lease: int, ratio: real, turns: seq<Turn>): (r: seq<real>)
    ensures r != [] && |r| <= |turns| + 1
  {
    if turns == [] then [RenewInterval(lease, ratio)]
    else
      var before, last := Sleeps(lease, ratio, turns[..|turns| - 1]), turns[|turns| - 1];
      if |before| == |turns| && GoesOn(last) then before + [RenewInterval(last.result.value, ratio)] else before
  }

  /** The loop has taken these turns and is now in the last of these sleeps. */
  ghost predicate Slept(lease: int, ratio: real, taken: seq<Turn>, sleeps: seq<real>) {
    sleeps == Sleeps(lease, ratio, taken) && |sleeps| == |taken| + 1
  }

  lemma SleptOn(lease: int, ratio: real, taken: seq<Turn>, sleeps: seq<real>, t: Turn)
    requires Slept(lease, ratio, taken, sleeps)
    ensures if GoesOn(t) then Slept(lease, ratio, taken + [t], sleeps + [RenewInterval(t.result.value, ratio)])
            else sleeps == Sleeps(lease, ratio, taken + [t])
  {
    assert (taken + [t])[..|taken|] == taken;
  }

  /** The seconds the server reported last before sleep k. */
  function Reported(lease: int, turns: seq<Turn>, k: nat): int
    requires k <= |turns| && forall i :: 0 <= i < k ==> GoesOn(turns[i])
  {
    if k == 0 then lease
    else
      assert GoesOn(turns[k - 1]);
      turns[k - 1].result.value
  }

  /** Every sleep is the interval of the last report, and all turns before it went on. */
  lemma {:induction false} SleepsFollowReports(lease: int, ratio: real, turns: seq<Turn>, k: nat)
    requires k < |Sleeps(lease, ratio, turns)|
    ensures forall i :: 0 <= i < k ==> GoesOn(turns[i])
    ensures Sleeps(lease, ratio, turns)[k] == RenewInterval(Reported(lease, turns, k), ratio)
    decreases |turns|
  {
    if turns != [] {
      var front := turns[..|turns| - 1];
      var before := Sleeps(lease, ratio, front);
      if k < |before| {
        SleepsFollowReports(lease, ratio, front, k);
        forall i | 0 <= i < k ensures GoesOn(turns[i]) { assert turns[i] == front[i]; }
      } else {
        SleepsFollowReports(lease, ratio, front, k - 1);
        forall i | 0 <= i < k ensures GoesOn(turns[i]) { assert i < k - 1 ==> turns[i] == front[i]; }
      }
    }
  }

  /** When the server handles renew k; the grant, or the report before the first sleep, is at time 0. */
  function Arrival(sleeps: seq<real>, delays: seq<real>, k: nat): real
    requires k <= |sleeps| == |delays|
  {
    if k == 0 then 0.0 else Arrival(sleeps, delays, k - 1) + sleeps[k - 1] + delays[k - 1]
  }

  predicate NonNegative(delays: seq<real>) { forall i :: 0 <= i < |delays| ==> delays[i] >= 0.0 }

  /** The delay that a reported lease leaves room for. */
  predicate Punctual(reported: int, ratio: real, delay: real) {
    delay < reported as real * (1.0 - ratio) && delay < reported as real - 1.0
  }

  /** A renew is in time if and only if its delay fits; a report of one second or less never leaves room. */
  lemma InTime(reported: int, ratio: real, delay: real)
    requires 0.0 < ratio < 1.0 && reported >= 0 && delay >= 0.0
    ensures RenewInterval(reported, ratio) + delay < reported as real <==> Punctual(reported, ratio, delay)
    ensures reported <= 1 ==> !Punctual(reported, ratio, delay)
  {
    var l := reported as real;
    assert l * (1.0 - ratio) == l - l * ratio;
  }

  /** The lease reported before sleep k is still running when the next renew arrives. */
  predicate Kept(lease: int, ratio: real, turns: seq<Turn>, delays: seq<real>, k: nat)
    requires k < |Sleeps(lease, ratio, turns)| == |delays|
    requires k <= |turns| && forall i :: 0 <= i < k ==> GoesOn(turns[i])
  {
    var sleeps := Sleeps(lease, ratio, turns);
    Arrival(sleeps, delays, k + 1) < Arrival(sleeps, delays, k) + Reported(lease, turns, k) as real
  }

  /** Lease continuity: in any run of the loop the renew after sleep k meets a running lease if and only if its delay fits. */
  lemma LeaseContinuity(lease: int, ratio: real, turns: seq<Turn>, delays: seq<real>, k: nat)
    requires 0.0 < ratio < 1.0 && NonNegative(delays)
    requires k < |Sleeps(lease, ratio, turns)| == |delays|
    requires lease >= 0 && forall t :: t in turns && GoesOn(t) ==> t.result.value >= 0
    ensures forall i :: 0 <= i < k ==> GoesOn(turns[i])
    ensures Kept(lease, ratio, turns, delays, k) <==> Punctual(Reported(lease, turns, k), ratio, delays[k])
  {
    SleepsFollowReports(lease, ratio, turns, k);
    if k > 0 { assert turns[k - 1] in turns; }
    InTime(Reported(lease, turns, k), ratio, delays[k]);
  }

  /** Consecutive renews are at least a second apart, whatever the server reports. */
  lemma {:induction false} RenewsApart(lease: int, ratio: real, turns: seq<Turn>, delays: seq<real>, i: nat, k: nat)
    requires NonNegative(delays) && i <= k <= |Sleeps(lease, ratio, turns)| == |delays|
    ensures Arrival(Sleeps(lease, ratio, turns), delays, k) >= Arrival(Sleeps(lease, ratio, turns), delays, i) + (k - i) as real
    decreases k
  {
    if i < k {
      RenewsApart(lease, ratio, turns, delays, i, k - 1);
      SleepsFollowReports(lease, ratio, turns, k - 1);
    }
  }

  /** The lease that covers time t: the last report at or before t. */
  lemma {:induction false} Covered(lease: int, ratio: real, turns: seq<Turn>, delays: seq<real>, n: nat, t: real) returns (k: nat)
    requires 0.0 < ratio < 1.0 && NonNegative(delays) && n <= |Sleeps(lease, ratio, turns)| == |delays|
    requires lease >= 0 && forall u :: u in turns && GoesOn(u) ==> u.result.value >= 0
    requires forall i :: 0 <= i < n ==> (forall j :: 0 <= j < i ==> GoesOn(turns[j])) && Punctual(Reported(lease, turns, i), ratio, delays[i])
    requires 0.0 <= t < Arrival(Sleeps(lease, ratio, turns), delays, n)
    ensures k < n && (forall j :: 0 <= j < k ==> GoesOn(turns[j]))
    ensures Arrival(Sleeps(lease, ratio, turns), delays, k) <= t
    ensures t < Arrival(Sleeps(lease, ratio, turns), delays, k) + Reported(lease, turns, k) as real
    decreases n
  {
    var sleeps := Sleeps(lease, ratio, turns);
    LeaseContinuity(lease, ratio, turns, delays, n - 1);
    if t >= Arrival(sleeps, delays, n - 1) {
      k := n - 1;
    } else {
      k := Covered(lease, ratio, turns, delays, n - 1, t);
    }
  }
}
