/**
 * The mathematical Fibonacci function and the shape of a memoised run,
 * shared by the Rust and the Python trace builders.
 */
module Fibonacci {

  function Fib(n: nat): nat {
    if n < 2 then n else Fib(n - 1) + Fib(n - 2)
  }

  lemma {:induction false} FibMonotonic(i: nat, j: nat)
    requires i <= j
    ensures Fib(i) <= Fib(j)
    decreases j
  {
    if i < j {
      FibMonotonic(i, j - 1);
    }
  }

  /**
   * The inputs for which a memoised run started with an empty memo
   * performs a real computation. For n = 1 the base case answers at once,
   * so 0 is never visited.
   */
  function ComputedSet(n: nat): (keys: set<int>)
    ensures forall k :: k in keys <==> (if n == 1 then k == 1 else 0 <= k <= n)
  {
    if n == 1 then {1} else UpTo(n)
  }

  /** The integers 0..n, both ends included. */
  function UpTo(n: nat): (keys: set<int>)
    ensures forall k :: k in keys <==> 0 <= k <= n
  {
    if n == 0 then {0} else UpTo(n - 1) + {n}
  }

  /**
   * The number of steps such a run records: every input in `ComputedSet(n)`
   * once, plus one memo lookup for each n' in 3..n (the second recursive
   * call of n', on n' - 2).
   */
  function StepCount(n: nat): nat {
    if n <= 1 then 1 else 2 * n - 1
  }

  /** 2^64, the first value a `u64` cannot hold. */
  const U64Limit: nat := 0x1_0000_0000_0000_0000
}
