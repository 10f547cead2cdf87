/** Runs of a step machine: a state type, an action type and a total next-state function.
    The machines of this project share this module for everything that is induction over runs. */
module Runs {

  function Exec<S, A>(next: (S, A) -> S, s: S, run: seq<A>): S
    decreases |run|
  {
    if run == [] then s else Exec(next, next(s, run[0]), run[1..])
  }

  // Every step taken along the run satisfies `ok`.
  predicate Along<S, A>(next: (S, A) -> S, ok: (S, A) -> bool, s: S, run: seq<A>)
    decreases |run|
  {
    run == [] || (ok(s, run[0]) && Along(next, ok, next(s, run[0]), run[1..]))
  }

  // `run` leads from s to t by steps that satisfy `ok`.
  predicate Leads<S(==), A>(next: (S, A) -> S, ok: (S, A) -> bool, s: S, run: seq<A>, t: S) {
    Exec(next, s, run) == t && Along(next, ok, s, run)
  }

  ghost predicate Kept<S(!new), A(!new)>(next: (S, A) -> S, ok: (S, A) -> bool, inv: S -> bool) {
    forall s, a :: inv(s) && ok(s, a) ==> inv(next(s, a))
  }

  lemma {:induction false} InvariantAlong<S(!new), A(!new)>(
      next: (S, A) -> S, ok: (S, A) -> bool, inv: S -> bool, s: S, run: seq<A>)
    requires Kept(next, ok, inv)
    requires inv(s) && Along(next, ok, s, run)
    ensures inv(Exec(next, s, run))
    decreases |run|
  {
    if run != [] { InvariantAlong(next, ok, inv, next(s, run[0]), run[1..]); }
  }

  lemma {:induction false} Append<S, A>(
      next: (S, A) -> S, ok: (S, A) -> bool, s: S, a: seq<A>, t: S, b: seq<A>, u: S)
    requires Leads(next, ok, s, a, t) && Leads(next, ok, t, b, u)
    ensures Leads(next, ok, s, a + b, u)
    decreases |a|
  {
    if a == [] {
      assert a + b == b;
    } else {
      Append(next, ok, next(s, a[0]), a[1..], t, b, u);
      assert (a + b)[1..] == a[1..] + b;
    }
  }

  lemma Extend<S, A>(next: (S, A) -> S, ok: (S, A) -> bool, s: S, run: seq<A>, t: S, a: A)
    requires Leads(next, ok, s, run, t) && ok(t, a)
    ensures Leads(next, ok, s, run + [a], next(t, a))
  {
    assert Along(next, ok, next(t, a), [a][1..]);
    Append(next, ok, s, run, t, [a], next(t, a));
  }

  lemma One<S, A>(next: (S, A) -> S, s: S, a: A, run: seq<A>)
    ensures Exec(next, s, [a] + run) == Exec(next, next(s, a), run)
  {
    assert ([a] + run)[1..] == run;
  }

  lemma {:induction false} Split<S, A>(next: (S, A) -> S, s: S, a: seq<A>, b: seq<A>)
    ensures Exec(next, s, a + b) == Exec(next, Exec(next, s, a), b)
    decreases |a|
  {
    if a == [] {
      assert a + b == b;
    } else {
      assert (a + b)[1..] == a[1..] + b;
      Split(next, next(s, a[0]), a[1..], b);
    }
  }

  lemma Four<S, A>(next: (S, A) -> S, s: S, a: A, b: A, c: A, d: A)
    ensures Exec(next, s, [a, b, c, d]) == next(next(next(next(s, a), b), c), d)
  {
    assert [a] + [b, c, d] == [a, b, c, d] && [b] + [c, d] == [b, c, d] && [c] + [d] == [c, d] && [d] + [] == [d];
    One(next, s, a, [b, c, d]);
    One(next, next(s, a), b, [c, d]);
    One(next, next(next(s, a), b), c, [d]);
    One(next, next(next(next(s, a), b), c), d, []);
  }

  lemma Five<S, A>(next: (S, A) -> S, s: S, a: A, b: A, c: A, d: A, e: A)
    ensures Exec(next, s, [a, b, c, d, e]) == next(next(next(next(next(s, a), b), c), d), e)
  {
    assert [a] + [b, c, d, e] == [a, b, c, d, e];
    One(next, s, a, [b, c, d, e]);
    Four(next, next(s, a), b, c, d, e);
  }
}
