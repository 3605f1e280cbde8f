/** The C# integer operators the child behaviour relies on, written out
    where they differ from Dafny's. */
module CSharp {

  /** C#'s `a % b` on `int`: the quotient is truncated toward zero, so the
      remainder carries the sign of the dividend. Dafny's `%` is Euclidean
      (never negative); the two agree on non-negative dividends, and on a
      negative one they differ by `b` unless `b` divides it. */
  function CsRem(a: int, b: int): (r: int)
    requires b > 0
    ensures -b < r < b
    ensures a >= 0 ==> r >= 0
    ensures a <= 0 ==> r <= 0
    // congruent to `a` modulo `b`, like Dafny's remainder
    ensures r == a % b || r == a % b - b
    // so a zero test means the same under both operators, whatever the sign
    ensures r == 0 <==> a % b == 0
  {
    if a >= 0 || a % b == 0 then a % b else a % b - b
  }

  /** The two remainders do disagree on negative operands. */
  lemma CsRemOfNegative()
    ensures CsRem(-3, 5) == -3 && (-3) % 5 == 2
    ensures CsRem(-5, 5) == 0 && (-5) % 5 == 0
  {
  }
}
