/** Concrete iterators used by the library's tests and documentation: integer
    ranges, and `successors` chains computing factorials and Fibonacci
    numbers. Values are unbounded naturals. */
module Witnesses {
  import opened Producers

  /** The integers `lo, lo + 1, ..., hi - 1`. */
  function Interval(lo: int, hi: int): (r: seq<int>)
    ensures |r| == if lo < hi then hi - lo else 0
    ensures forall i :: 0 <= i < |r| ==> r[i] == lo + i
    decreases hi - lo
  {
    if lo < hi then [lo] + Interval(lo + 1, hi) else []
  }

  /** A fresh `lo..hi`, an exact-size iterator. */
  function Range(lo: int, hi: int): (p: Producer<int>) {
    Producer(Listed(Interval(lo, hi)), 0)
  }

  /** A fresh `lo..=hi`. */
  function RangeInclusive(lo: int, hi: int): (p: Producer<int>) {
    Range(lo, hi + 1)
  }

  /** `step` applied `k` times to `seed`. */
  function Iterate<S>(step: S -> S, seed: S, k: nat): (s: S) {
    if k == 0 then seed else step(Iterate(step, seed, k - 1))
  }

  /** A fresh `successors(Some(seed), |s| Some(step(s))).map(view)`: an
      infinite iterator that never returns `None`. */
  function Successors<S, T>(seed: S, step: S -> S, view: S -> T): (p: Producer<T>) {
    Producer(Stream(k => Some(view(Iterate(step, seed, k)))), 0)
  }

  function Factorial(n: nat): (f: nat) {
    if n == 0 then 1 else n * Factorial(n - 1)
  }

  function Fibonacci(n: nat): (f: nat) {
    if n < 2 then n else Fibonacci(n - 2) + Fibonacci(n - 1)
  }

  /** `|&(idx0, acc)| (idx0 + 1, (idx0 + 1) * acc)` */
  function FactorialStep(p: (nat, nat)): (q: (nat, nat)) {
    (p.0 + 1, (p.0 + 1) * p.1)
  }

  /** `|&(a, b)| (b, b + a)` */
  function FibonacciStep(p: (nat, nat)): (q: (nat, nat)) {
    (p.1, p.1 + p.0)
  }

  function Factorials(): (p: Producer<nat>) {
    Successors((0, 1), FactorialStep, (p: (nat, nat)) => p.1)
  }

  function Fibonaccis(): (p: Producer<nat>) {
    Successors((0, 1), FibonacciStep, (p: (nat, nat)) => p.0)
  }

  lemma {:induction false} FactorialStepIterate(k: nat)
    ensures Iterate(FactorialStep, (0, 1), k) == (k, Factorial(k))
  {
    if k > 0 {
      FactorialStepIterate(k - 1);
    }
  }

  lemma {:induction false} FibonacciStepIterate(k: nat)
    ensures Iterate(FibonacciStep, (0, 1), k) == (Fibonacci(k), Fibonacci(k + 1))
  {
    if k > 0 {
      FibonacciStepIterate(k - 1);
    }
  }

  /** The k-th call to the factorial iterator yields k!. */
  lemma FactorialsAt()
    ensures forall k: nat :: Factorials().source.At(Factorials().cursor + k) == Some(Factorial(k))
  {
    forall k: nat
      ensures Factorials().source.At(Factorials().cursor + k) == Some(Factorial(k))
    {
      FactorialStepIterate(k);
    }
  }

  /** The k-th call to the Fibonacci iterator yields the k-th Fibonacci number. */
  lemma FibonaccisAt()
    ensures forall k: nat :: Fibonaccis().source.At(Fibonaccis().cursor + k) == Some(Fibonacci(k))
  {
    forall k: nat
      ensures Fibonaccis().source.At(Fibonaccis().cursor + k) == Some(Fibonacci(k))
    {
      FibonacciStepIterate(k);
    }
  }

  /** The values the library's tests expect. */
  lemma FactorialTable()
    ensures Factorial(0) == 1 && Factorial(1) == 1 && Factorial(2) == 2 && Factorial(3) == 6
    ensures Factorial(4) == 24 && Factorial(5) == 120 && Factorial(6) == 720
  {
  }

  lemma FibonacciTable()
    ensures Fibonacci(0) == 0 && Fibonacci(1) == 1 && Fibonacci(2) == 1 && Fibonacci(3) == 2
    ensures Fibonacci(4) == 3 && Fibonacci(5) == 5 && Fibonacci(6) == 8 && Fibonacci(7) == 13
    ensures Fibonacci(8) == 21 && Fibonacci(9) == 34
  {
  }
}
