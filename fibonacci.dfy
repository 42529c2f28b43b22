/**
 * `useFibonacci(n)`: the n-th Fibonacci number, computed by an iterative
 * loop and checked against the recursive definition.
 */
module Fibonacci {

  /** The Fibonacci numbers: F(0) = 0, F(1) = 1, F(n) = F(n-1) + F(n-2). */
  function Fib(n: nat): nat {
    if n <= 1 then n else Fib(n - 1) + Fib(n - 2)
  }

  /**
   * The inner `calculateFibonacci(num)`: values up to `1` are returned
   * as they are; otherwise the loop walks `i` from `2` to `num`, keeping
   * the last two numbers, and runs `num - 1` times.
   */
  method CalculateFibonacci(num: int) returns (result: int, ghost iterations: nat)
    ensures num <= 1 ==> result == num && iterations == 0
    ensures num >= 1 ==> result == Fib(num)
    ensures num >= 2 ==> iterations == num - 1
  {
    iterations := 0;
    if num <= 1 {
      return num, 0;
    }
    var prev := 0;
    var current := 1;
    var i := 2;
    while i <= num
      invariant 2 <= i <= num + 1
      invariant prev == Fib(i - 2) && current == Fib(i - 1)
      invariant iterations == i - 2
      decreases num - i
    {
      var next := prev + current;
      prev := current;
      current := next;
      i := i + 1;
      iterations := iterations + 1;
    }
    result := current;
  }

  /** `useFibonacci(n)`: `0` for negative `n`, otherwise F(n). */
  method UseFibonacci(n: int) returns (result: int)
    ensures n < 0 ==> result == 0
    ensures n >= 0 ==> result == Fib(n)
  {
    if n < 0 {
      return 0;
    }
    if n <= 1 {
      return n;
    }
    ghost var iterations;
    result, iterations := CalculateFibonacci(n);
  }

  /** One step of the sequence never goes down. */
  lemma {:induction false} FibStep(n: nat)
    ensures Fib(n) <= Fib(n + 1)
  {
    if n >= 1 {
      assert Fib(n + 1) == Fib(n) + Fib(n - 1);
    }
  }

  /** The Fibonacci numbers are non-decreasing. */
  lemma {:induction false} FibMonotone(m: nat, n: nat)
    requires m <= n
    ensures Fib(m) <= Fib(n)
    decreases n - m
  {
    if m < n {
      FibStep(m);
      FibMonotone(m + 1, n);
    }
  }
}
