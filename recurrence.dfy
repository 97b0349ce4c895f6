/** The additive recurrence the Fibonacci circuits lay out: each term is the sum of the two
    before it. */
module Recurrence {

  /** Term `k` of the recurrence seeded with `x` (term 0) and `y` (term 1). */
  function Term(x: int, y: int, k: nat): int
  {
    if k == 0 then x else if k == 1 then y else Term(x, y, k - 2) + Term(x, y, k - 1)
  }

  /** The Fibonacci numbers, F(0) = 0 and F(1) = 1. */
  function Fib(k: nat): nat
  {
    if k < 2 then k else Fib(k - 2) + Fib(k - 1)
  }

  /** Seeded with 1 and 1 (F(1) and F(2)), term k is F(k + 1). */
  lemma {:induction false} TermOfOnes(k: nat)
    ensures Term(1, 1, k) == Fib(k + 1)
  {
    if k >= 2 {
      TermOfOnes(k - 2);
      TermOfOnes(k - 1);
    }
  }

  /** The recurrence itself, for use where the definition is not unfolded. */
  lemma TermStep(x: int, y: int, k: nat)
    ensures Term(x, y, k + 2) == Term(x, y, k) + Term(x, y, k + 1)
  {
  }

  /** Seeded with 1 and 1, term 9 is F(10) = 55, the public output of the Fibonacci circuits. */
  lemma FibTen()
    ensures Term(1, 1, 9) == 55
  {
    TermOfOnes(9);
    assert Fib(5) == 5;
    assert Fib(8) == 21 && Fib(9) == 34;
  }
}
