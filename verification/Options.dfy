/** Option lists: every option that says something about a setting overrides the ones
    before it. */
module Options {
  import opened Wrappers

  /** Option i is the last one that says anything; `pick` is what an option says. */
  ghost predicate IsLast<O, T>(opts: seq<O>, pick: O -> Option<T>, i: int) {
    0 <= i < |opts| && pick(opts[i]).Some? && forall j :: i < j < |opts| ==> pick(opts[j]).None?
  }

  /** What the last option that says anything says. */
  function LastOf<O, T>(opts: seq<O>, pick: O -> Option<T>, unset: T): T {
    if opts == [] then unset
    else if pick(opts[|opts| - 1]).Some? then pick(opts[|opts| - 1]).value
    else LastOf(opts[..|opts| - 1], pick, unset)
  }

  lemma {:induction false} LastDecides<O, T>(opts: seq<O>, pick: O -> Option<T>, unset: T, i: nat)
    requires IsLast(opts, pick, i)
    ensures LastOf(opts, pick, unset) == pick(opts[i]).value
  {
    if i < |opts| - 1 {
      LastDecides(opts[..|opts| - 1], pick, unset, i);
    }
  }

  lemma {:induction false} NothingSaid<O, T>(opts: seq<O>, pick: O -> Option<T>, unset: T)
    ensures (forall i :: 0 <= i < |opts| ==> pick(opts[i]).None?) ==> LastOf(opts, pick, unset) == unset
  {
    if opts != [] {
      NothingSaid(opts[..|opts| - 1], pick, unset);
    }
  }

  /** One of the two cases applies. */
  lemma {:induction false} LastOrNothing<O, T>(opts: seq<O>, pick: O -> Option<T>) returns (i: int)
    ensures if i < 0 then forall j :: 0 <= j < |opts| ==> pick(opts[j]).None? else IsLast(opts, pick, i)
  {
    i := |opts| - 1;
    while i >= 0 && pick(opts[i]).None?
      invariant -1 <= i < |opts| && forall j :: i < j < |opts| ==> pick(opts[j]).None?
    {
      i := i - 1;
    }
  }
}
