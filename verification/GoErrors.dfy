/** Error values with the errors they wrap, and the search of errors.As for a
    CodedError. */
module GoErrors {
  import opened Wrappers

  /** `code` is Some for a CodedError; `wrapped` is what Unwrap returns. */
  datatype GoError = GoError(msg: string, code: Option<string>, wrapped: seq<GoError>)

  /** errors.As: the error itself, or else the first success among what it wraps. */
  function FindCode(e: GoError): Option<string>
    decreases e, 1
  {
    if e.code.Some? then e.code else FindCodeIn(e.wrapped)
  }

  function FindCodeIn(es: seq<GoError>): Option<string>
    decreases es, 0
  {
    if es == [] then None
    else if FindCode(es[0]).Some? then FindCode(es[0])
    else FindCodeIn(es[1..])
  }

  /** The chain of an error in the order of the errors package: itself, then the
      chain of each wrapped error. */
  function Chain(e: GoError): seq<GoError>
    decreases e, 1
  {
    [e] + Chains(e.wrapped)
  }

  function Chains(es: seq<GoError>): seq<GoError>
    decreases es, 0
  {
    if es == [] then [] else Chain(es[0]) + Chains(es[1..])
  }

  /** The code of the first coded error in a list. */
  function FirstCode(es: seq<GoError>): Option<string> {
    if es == [] then None else if es[0].code.Some? then es[0].code else FirstCode(es[1..])
  }

  lemma {:induction false} FirstCodeConcat(a: seq<GoError>, b: seq<GoError>)
    ensures FirstCode(a + b) == if FirstCode(a).Some? then FirstCode(a) else FirstCode(b)
  {
    if a == [] {
      assert a + b == b;
    } else {
      assert (a + b)[1..] == a[1..] + b;
      FirstCodeConcat(a[1..], b);
    }
  }

  lemma {:induction false} FindsFirst(e: GoError)
    ensures FindCode(e) == FirstCode(Chain(e))
    decreases e, 1
  {
    FindsFirstIn(e.wrapped);
    FirstCodeConcat([e], Chains(e.wrapped));
  }

  lemma {:induction false} FindsFirstIn(es: seq<GoError>)
    ensures FindCodeIn(es) == FirstCode(Chains(es))
    decreases es, 0
  {
    if es != [] {
      FindsFirst(es[0]);
      FindsFirstIn(es[1..]);
      FirstCodeConcat(Chain(es[0]), Chains(es[1..]));
    }
  }

  /** e inside one fmt.Errorf("...%w") after another, the innermost text first. */
  function Wrap(e: GoError, texts: seq<string>): GoError {
    if texts == [] then e else GoError(texts[|texts| - 1], None, [Wrap(e, texts[..|texts| - 1])])
  }

  /** Wrapping never hides a code, however deep it is, and adds none. */
  lemma {:induction false} WrappingKeepsCode(e: GoError, texts: seq<string>)
    ensures FindCode(Wrap(e, texts)) == FindCode(e)
  {
    if texts != [] {
      var inner := Wrap(e, texts[..|texts| - 1]);
      WrappingKeepsCode(e, texts[..|texts| - 1]);
      assert FindCodeIn([inner]) == FindCode(inner) by { assert [inner][1..] == []; }
    }
  }

  /** A coded error hides whatever codes it wraps, and of several wrapped errors the first
      one that has a code anywhere decides. */
  lemma {:induction false} OuterAndFirstDecide(msg: string, code: string, left: seq<GoError>, e: GoError, right: seq<GoError>)
    ensures FindCode(GoError(msg, Some(code), left)) == Some(code)
    ensures (forall i :: 0 <= i < |left| ==> FindCode(left[i]).None?) && FindCode(e).Some? ==>
      FindCode(GoError(msg, None, left + [e] + right)) == FindCode(e)
    ensures (forall i :: 0 <= i < |left| ==> FindCode(left[i]).None?) ==> FindCode(GoError(msg, None, left)).None?
    decreases |left|
  {
    if left != [] {
      OuterAndFirstDecide(msg, code, left[1..], e, right);
      assert (left + [e] + right)[1..] == left[1..] + [e] + right;
      assert forall i :: 0 <= i < |left| - 1 ==> left[1..][i] == left[i + 1];
    }
  }
}
