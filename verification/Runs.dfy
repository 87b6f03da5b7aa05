/** Runs of a transition system that is given by its step function: what a list of
    labels leads to, and what can be reached. */
module Runs {
  import opened Wrappers

  /** Take the labels one by one; None when one of them is not enabled. */
  function Exec<S, L>(next: (S, L) -> Option<S>, s: S, ls: seq<L>): Option<S>
    decreases |ls|
  {
    if ls == [] then Some(s)
    else if next(s, ls[0]).None? then None
    else Exec(next, next(s, ls[0]).value, ls[1..])
  }

  ghost predicate Reachable<S, L(!new)>(next: (S, L) -> Option<S>, init: S, s: S) {
    exists ls :: Exec(next, init, ls) == Some(s)
  }

  lemma ExecCons<S, L>(next: (S, L) -> Option<S>, s: S, l: L, ls: seq<L>)
    requires next(s, l).Some?
    ensures Exec(next, s, [l] + ls) == Exec(next, next(s, l).value, ls)
  {
    assert ([l] + ls)[1..] == ls;
  }

  lemma {:induction false} ExecConcat<S, L>(next: (S, L) -> Option<S>, s: S, a: seq<L>, b: seq<L>)
    requires Exec(next, s, a).Some?
    ensures Exec(next, s, a + b) == Exec(next, Exec(next, s, a).value, b)
    decreases |a|
  {
    if a == [] {
      assert a + b == b;
    } else {
      assert (a + b)[1..] == a[1..] + b;
      ExecConcat(next, next(s, a[0]).value, a[1..], b);
    }
  }

  /** Whatever a run from a reachable state leads to is reachable. */
  lemma Continue<S, L(!new)>(next: (S, L) -> Option<S>, init: S, s: S, ls: seq<L>)
    requires Reachable(next, init, s) && Exec(next, s, ls).Some?
    ensures Reachable(next, init, Exec(next, s, ls).value)
  {
    var before :| Exec(next, init, before) == Some(s);
    ExecConcat(next, init, before, ls);
  }

  lemma Step<S, L(!new)>(next: (S, L) -> Option<S>, init: S, s: S, l: L)
    requires Reachable(next, init, s) && next(s, l).Some?
    ensures Reachable(next, init, next(s, l).value)
  {
    assert Exec(next, s, [l]) == next(s, l);
    Continue(next, init, s, [l]);
  }
}
