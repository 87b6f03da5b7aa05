/** Decimal text of a natural number, as strconv.Itoa prints it. */
module Decimal {
  function Digit(d: nat): char
    requires d < 10
  {
    '0' + d as char
  }

  function Itoa(n: nat): string {
    if n < 10 then [Digit(n)] else Itoa(n / 10) + [Digit(n % 10)]
  }

  /** The number a string of digits denotes. */
  function Value(s: string): int {
    if s == [] then 0 else 10 * Value(s[..|s| - 1]) + (s[|s| - 1] as int - '0' as int)
  }

  /** The text determines the number. */
  lemma {:induction false} ItoaDenotes(n: nat)
    ensures Itoa(n) != [] && Value(Itoa(n)) == n
  {
    if n < 10 {
      assert Itoa(n)[..0] == [];
    } else {
      ItoaDenotes(n / 10);
      assert Itoa(n)[..|Itoa(n)| - 1] == Itoa(n / 10);
    }
  }

  /** ... and it is the usual one: nothing but digits, and no leading zero. */
  lemma {:induction false} ItoaIsCanonical(n: nat)
    ensures forall i :: 0 <= i < |Itoa(n)| ==> '0' <= Itoa(n)[i] <= '9'
    ensures Itoa(n) != [] && (Itoa(n)[0] == '0' <==> n == 0)
  {
    if n >= 10 {
      ItoaIsCanonical(n / 10);
    }
  }
}
