/** test/fibonacci.py: `fibonacci` with a `while` loop over the pair `(a, b)`,
    and `fibonacci__tail` with an inner `loop(a, b, n)` that counts `n` down
    to 0. Python integers are unbounded, like Dafny's `int`. */
module FibonacciExample {
  import opened Wrappers

  /** The Fibonacci numbers: 0, 1, 1, 2, 3, 5, ... */
  function Fib(k: nat): nat
  {
    if k < 2 then k else Fib(k - 1) + Fib(k - 2)
  }

  /** What `fibonacci(n)` returns: `n` itself when n <= 1 (negative `n`
      included), the n-th Fibonacci number otherwise. */
  function FibonacciValue(n: int): int
  {
    if n <= 1 then n else Fib(n)
  }

  /** The inner `loop(a, b, n)` of `fibonacci__tail`. It reaches its base
      case `n == 0` only from `n >= 0`; see `TailLoopRun` for negative `n`. */
  function FibonacciTailLoop(a: int, b: int, n: int): int
    requires n >= 0
    decreases n
  {
    if n == 0 then a else FibonacciTailLoop(b, a + b, n - 1)
  }

  /** Started on two consecutive Fibonacci numbers, the loop moves `n` steps
      along the sequence. */
  lemma {:induction false} TailLoopShift(k: nat, n: nat)
    ensures FibonacciTailLoop(Fib(k), Fib(k + 1), n) == Fib(k + n)
    decreases n
  {
    if n > 0 {
      TailLoopShift(k + 1, n - 1);
      assert Fib(k + 2) == Fib(k + 1) + Fib(k);
    }
  }

  /** `fibonacci__tail(n)` = `loop(0, 1, n)`: the n-th Fibonacci number, so
      0 for n == 0 and 1 for n == 1. */
  function FibonacciTail(n: int): (r: int)
    requires n >= 0
    ensures r == Fib(n)
  {
    TailLoopShift(0, n);
    FibonacciTailLoop(0, 1, n)
  }

  /** `fibonacci(n)`: return `n` when n <= 1; otherwise start from
      `(a, b) = (0, 1)` and apply the simultaneous update `a, b = b, a + b`
      (the new `b` uses the old `a`) then `n -= 1` while n > 1. Wherever the
      tail version terminates, the two agree. */
  method Fibonacci(n0: int) returns (r: int)
    ensures r == FibonacciValue(n0)
    ensures n0 >= 0 ==> r == FibonacciTail(n0)
  {
    if n0 <= 1 {
      return n0;
    }
    var n := n0;
    var a := 0;
    var b := 1;
    while n > 1
      invariant 1 <= n <= n0
      invariant a == Fib(n0 - n) && b == Fib(n0 - n + 1)
      decreases n
    {
      a, b := b, a + b;
      n := n - 1;
    }
    r := b;
  }

  /** `loop(a, b, n)` exactly as written, allowed at most `fuel` calls:
      `None` when it has not returned by then. */
  function TailLoopRun(a: int, b: int, n: int, fuel: nat): Option<int>
    decreases fuel
  {
    if fuel == 0 then None
    else if n == 0 then Some(a)
    else TailLoopRun(b, a + b, n - 1, fuel - 1)
  }

  /** From `n >= 0`, the loop returns after `n + 1` calls, with the value
      `FibonacciTailLoop` gives. */
  lemma {:induction false} TailLoopRunReturns(a: int, b: int, n: nat, fuel: nat)
    requires fuel > n
    ensures TailLoopRun(a, b, n, fuel) == Some(FibonacciTailLoop(a, b, n))
    decreases n
  {
    if n > 0 {
      TailLoopRunReturns(b, a + b, n - 1, fuel - 1);
    }
  }

  /** From a negative `n` the loop never returns, however many calls it is
      allowed: `n - 1` stays negative and never equals 0. */
  lemma {:induction false} TailLoopRunDiverges(a: int, b: int, n: int, fuel: nat)
    requires n < 0
    ensures TailLoopRun(a, b, n, fuel) == None
    decreases fuel
  {
    if fuel > 0 {
      TailLoopRunDiverges(b, a + b, n - 1, fuel - 1);
    }
  }

  /** `fibonacci__tail` as written disagrees with `fibonacci` on every
      negative input: `fibonacci(n)` returns `n`, `loop(0, 1, n)` never
      returns. */
  lemma TailAsWrittenLosesNegatives(n: int, fuel: nat)
    requires n < 0
    ensures FibonacciValue(n) == n
    ensures TailLoopRun(0, 1, n, fuel) == None
  {
    TailLoopRunDiverges(0, 1, n, fuel);
  }

  /** `fibonacci__tail` with the guard `if n <= 1: return n` of `fibonacci`
      kept in front of the loop: it terminates on every integer and agrees
      with `fibonacci` everywhere. */
  function FibonacciTailGuarded(n: int): (r: int)
    ensures r == FibonacciValue(n)
    ensures n > 1 ==> TailLoopRun(0, 1, n, n + 1) == Some(r)
  {
    if n <= 1 then
      n
    else
      TailLoopRunReturns(0, 1, n, n + 1);
      FibonacciTail(n)
  }
}
