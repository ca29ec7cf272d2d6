/** Definitions the other modules share. */
module Basics {

  datatype Option<+T> = None | Some(value: T)

  function Max(a: int, b: int): int {
    if a < b then b else a
  }

  function Min(a: int, b: int): int {
    if a < b then a else b
  }

  function MaxReal(a: real, b: real): real {
    if a < b then b else a
  }

  function MinReal(a: real, b: real): real {
    if a < b then a else b
  }

  function Ceil(x: real): int {
    -((-x).Floor)
  }

  /** n batches of b records. Recursive, so that a proof meets it one batch at a time. */
  function Times(n: nat, b: nat): nat {
    if n == 0 then 0 else Times(n - 1, b) + b
  }

  lemma {:induction false} TimesIsProduct(n: nat, b: nat)
    ensures Times(n, b) == n * b
  {
    if n > 0 {
      TimesIsProduct(n - 1, b);
      assert (n - 1) * b + b == n * b;
    }
  }

  lemma CeilAtMost(q: real, n: int)
    ensures Ceil(q) <= n <==> q <= n as real
  {
  }

  lemma Scaled(a: real, b: real, k: real)
    requires k > 0.0
    ensures a < b <==> a * k < b * k
  {
  }

  lemma DivTimes(t: real, n: real)
    requires n != 0.0
    ensures t / n * n == t
  {
  }
}
