/** Runs of any machine: sequences of labels that can be taken one after another. */
module Runs {

  /** The labels are allowed, each in the state that the ones before it lead to. */
  predicate Legal<S, L>(ok: (S, L) -> bool, next: (S, L) -> S, s: S, labels: seq<L>)
    decreases |labels|
  {
    labels == [] || (ok(s, labels[0]) && Legal(ok, next, next(s, labels[0]), labels[1..]))
  }

  /** The state that the labels lead to. */
  function End<S, L>(next: (S, L) -> S, s: S, labels: seq<L>): S
    decreases |labels|
  {
    if labels == [] then s else End(next, next(s, labels[0]), labels[1..])
  }

  lemma {:induction false} Concat<S, L>(ok: (S, L) -> bool, next: (S, L) -> S, s: S, a: seq<L>, b: seq<L>)
    requires Legal(ok, next, s, a) && Legal(ok, next, End(next, s, a), b)
    ensures Legal(ok, next, s, a + b) && End(next, s, a + b) == End(next, End(next, s, a), b)
    decreases |a|
  {
    if a == [] {
      assert a + b == b;
    } else {
      Concat(ok, next, next(s, a[0]), a[1..], b);
      assert (a + b)[1..] == a[1..] + b;
    }
  }

  /** One more label. */
  lemma Extend<S, L>(ok: (S, L) -> bool, next: (S, L) -> S, s: S, a: seq<L>, l: L)
    requires Legal(ok, next, s, a) && ok(End(next, s, a), l)
    ensures Legal(ok, next, s, a + [l]) && End(next, s, a + [l]) == next(End(next, s, a), l)
  {
    var t := End(next, s, a);
    assert Legal(ok, next, next(t, l), []) && End(next, next(t, l), []) == next(t, l);
    assert [l][1..] == [];
    Concat(ok, next, s, a, [l]);
  }

  /** Where three steps lead. */
  lemma EndThree<S, L>(next: (S, L) -> S, s: S, k: L, l: L, m: L)
    ensures End(next, s, [k, l, m]) == next(next(next(s, k), l), m)
  {
    var s1 := next(s, k);
    var s2 := next(s1, l);
    assert End(next, next(s2, m), []) == next(s2, m) && [m][1..] == [];
    assert End(next, s2, [m]) == next(s2, m) && [l, m][1..] == [m];
    assert End(next, s1, [l, m]) == next(s2, m) && [k, l, m][1..] == [l, m];
  }

  /** What every allowed step keeps holds at the end of every run. */
  lemma {:induction false} Invariant<S, L>(ok: (S, L) -> bool, next: (S, L) -> S, inv: S -> bool, s: S, labels: seq<L>)
    requires inv(s) && Legal(ok, next, s, labels)
    requires forall t, l :: inv(t) && ok(t, l) ==> inv(next(t, l))
    ensures inv(End(next, s, labels))
    decreases |labels|
  {
    if labels != [] {
      Invariant(ok, next, inv, next(s, labels[0]), labels[1..]);
    }
  }

  /** A run under a stricter rule is a run under a laxer one. */
  lemma {:induction false} Relax<S, L>(strict: (S, L) -> bool, lax: (S, L) -> bool, next: (S, L) -> S, s: S, labels: seq<L>)
    requires Legal(strict, next, s, labels)
    requires forall t, l :: strict(t, l) ==> lax(t, l)
    ensures Legal(lax, next, s, labels)
    decreases |labels|
  {
    if labels != [] {
      Relax(strict, lax, next, next(s, labels[0]), labels[1..]);
    }
  }
}
