/** test/factorial.py: the same function written twice, once with a `while`
    loop that updates `r` and `n` in place, and once as tail recursion through
    an inner `loop(n, r)`. Python integers are unbounded, like Dafny's `int`. */
module FactorialExample {

  /** The product 1 * 2 * ... * n, and 1 (the empty product) when n <= 1. */
  function Product(n: int): int
    decreases n
  {
    if n <= 1 then 1 else Product(n - 1) * n
  }

  /** The inner `loop(n, r)` of `factorial__tail`: return `r` once n <= 1,
      otherwise recur on `(n - 1, r * n)`. It terminates for every `n`. */
  function FactorialTailLoop(n: int, r: int): int
    decreases n
  {
    if n <= 1 then r else FactorialTailLoop(n - 1, r * n)
  }

  /** The loop multiplies the accumulator by the product of the remaining
      counts. */
  lemma {:induction false} TailLoopProduct(n: int, r: int)
    ensures FactorialTailLoop(n, r) == r * Product(n)
    decreases n
  {
    if n > 1 {
      TailLoopProduct(n - 1, r * n);
      calc {
        FactorialTailLoop(n, r);
        FactorialTailLoop(n - 1, r * n);
        (r * n) * Product(n - 1);
        { assert (r * n) * Product(n - 1) == r * (Product(n - 1) * n); }
        r * Product(n);
      }
    }
  }

  /** `factorial__tail(n)`: start the loop with the seed 1. For n <= 1 the seed
      comes back unchanged; otherwise the result is 1 * 2 * ... * n. */
  function FactorialTail(n: int): (r: int)
    ensures r == Product(n)
    ensures n <= 1 ==> r == 1
  {
    TailLoopProduct(n, 1);
    FactorialTailLoop(n, 1)
  }

  /** `factorial(n)`: `r = 1`, then `r *= n; n -= 1` while `n > 1`. The body
      step is the recursive call's step, `(n, r)` to `(n - 1, r * n)`, both
      computed from the old `n`; so the pair keeps what the tail version
      would return, and the two agree on every integer. */
  method Factorial(n0: int) returns (r: int)
    ensures r == FactorialTail(n0)
    ensures r == Product(n0)
    ensures n0 <= 1 ==> r == 1
  {
    var n := n0;
    r := 1;
    while n > 1
      invariant FactorialTailLoop(n, r) == FactorialTail(n0)
      decreases n
    {
      r := r * n;
      n := n - 1;
    }
  }
}
