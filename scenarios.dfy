/** The library's tests and documentation example, each as a method whose
    postcondition is what the test asserts, plus general consequences of the
    contracts of `Get` and `Next`. */
module Scenarios {
  import opened Producers
  import opened Memo
  import opened Witnesses

  /** `m` wraps an iterator that never runs out and whose k-th value after
      `origin` is `f(k)`. */
  ghost predicate Yields<T>(m: MemoIter<T>, f: nat -> T)
    reads m
  {
    m.Valid() && forall k: nat :: m.iter.source.At(m.origin + k) == Some(f(k))
  }

  /** Over such an iterator the cache is never exhausted and holds `f(i)` at
      every index `i`. */
  lemma YieldsCache<T>(m: MemoIter<T>, f: nat -> T)
    requires Yields(m, f)
    ensures !m.exhausted
    ensures forall i :: 0 <= i < |m.sequence| ==> m.sequence[i] == f(i)
  {
    assert m.iter.source.At(m.origin + |m.sequence|) == Some(f(|m.sequence|));
  }

  /** `get` over such an iterator: the answer is `f(idx)` and the cache grows
      to exactly `idx + 1` values if it was shorter, with one call per value. */
  method LookUp<T>(m: MemoIter<T>, f: nat -> T, idx: nat) returns (r: Option<T>)
    requires Yields(m, f)
    modifies m
    ensures Yields(m, f)
    ensures r == Some(f(idx))
    ensures |m.sequence| == Max(old(|m.sequence|), idx + 1)
    ensures m.iter.cursor == m.origin + |m.sequence|
  {
    YieldsCache(m, f);
    r := m.Get(idx);
    YieldsCache(m, f);
  }

  /** The cache length after looking up every index of `idxs`, starting from
      a cache of length `n`. */
  function Reach(n: nat, idxs: seq<nat>): (r: nat)
    decreases |idxs|
  {
    if idxs == [] then n else Reach(Max(n, idxs[0] + 1), idxs[1..])
  }

  /** `get` at each index of `idxs` in turn over such an iterator. */
  method LookUpAll<T>(m: MemoIter<T>, f: nat -> T, idxs: seq<nat>) returns (rs: seq<Option<T>>)
    requires Yields(m, f)
    modifies m
    ensures Yields(m, f)
    ensures |rs| == |idxs| && forall j :: 0 <= j < |idxs| ==> rs[j] == Some(f(idxs[j]))
    ensures |m.sequence| == Reach(old(|m.sequence|), idxs)
    ensures m.iter.cursor == m.origin + |m.sequence|
  {
    rs := [];
    YieldsCache(m, f);
    for j := 0 to |idxs|
      invariant Yields(m, f) && m.iter.cursor == m.origin + |m.sequence|
      invariant |rs| == j && forall i :: 0 <= i < j ==> rs[i] == Some(f(idxs[i]))
      invariant Reach(|m.sequence|, idxs[j..]) == Reach(old(|m.sequence|), idxs)
    {
      var r := LookUp(m, f, idxs[j]);
      rs := rs + [r];
      assert idxs[j..][1..] == idxs[j + 1..];
    }
  }

  /** Lookups below the cache length leave it as it is. */
  lemma {:induction false} ReachBelow(n: nat, idxs: seq<nat>)
    requires forall j :: 0 <= j < |idxs| ==> idxs[j] < n
    ensures Reach(n, idxs) == n
    decreases |idxs|
  {
    if idxs != [] {
      ReachBelow(n, idxs[1..]);
    }
  }

  /** The shape of `test_factorial` and `test_fibonacci`, for any iterator
      yielding `f(0), f(1), ...`: a fresh `MemoIter` starts empty, a first
      round of lookups `warm` returns their values, a second round `reloads`
      below the cached length returns theirs without calling the iterator,
      and `take` returns `f(0), f(1), ...` up to the highest index looked
      up. */
  method Session<T>(it: Producer<T>, f: nat -> T, warm: seq<nat>, reloads: seq<nat>)
    returns (initial: seq<T>, answers: seq<Option<T>>, reanswers: seq<Option<T>>, recalls: nat, cache: seq<T>)
    requires forall k: nat :: it.source.At(it.cursor + k) == Some(f(k))
    requires forall j :: 0 <= j < |reloads| ==> reloads[j] < Reach(0, warm)
    ensures initial == []
    ensures |answers| == |warm| && forall j :: 0 <= j < |warm| ==> answers[j] == Some(f(warm[j]))
    ensures |reanswers| == |reloads| && forall j :: 0 <= j < |reloads| ==> reanswers[j] == Some(f(reloads[j]))
    ensures recalls == 0
    ensures |cache| == Reach(0, warm)
    ensures forall i :: 0 <= i < |cache| ==> cache[i] == f(i)
  {
    var m := new MemoIter.From(it);
    initial := m.sequence;
    answers := LookUpAll(m, f, warm);
    var before := m.iter.cursor;
    ReachBelow(|m.sequence|, reloads);
    reanswers := LookUpAll(m, f, reloads);
    recalls := m.iter.cursor - before;
    YieldsCache(m, f);
    var (vec, _) := m.Take();
    cache := vec;
  }

  lemma FactorialPrefix(c: seq<nat>)
    requires |c| == 7 && forall i :: 0 <= i < |c| ==> c[i] == Factorial(i)
    ensures c == [1, 1, 2, 6, 24, 120, 720]
  {
    FactorialTable();
  }

  lemma FibonacciPrefix(c: seq<nat>)
    requires |c| == 10 && forall i :: 0 <= i < |c| ==> c[i] == Fibonacci(i)
    ensures c == [0, 1, 1, 2, 3, 5, 8, 13, 21, 34]
  {
    FibonacciTable();
  }

  /** `test_factorial`: the cache starts empty, `get(0) == 1`, `get(1) == 1`,
      `get(4) == 24`, `get(6) == 720`, then `get(4) == 24`, `get(2) == 2` and
      `get(0) == 1` without further iterator calls, and `take` returns
      `[1, 1, 2, 6, 24, 120, 720]`. */
  method FactorialScenario()
    returns (initial: seq<nat>, answers: seq<Option<nat>>, reanswers: seq<Option<nat>>, recalls: nat, cache: seq<nat>)
    ensures initial == []
    ensures answers == [Some(1), Some(1), Some(24), Some(720)]
    ensures reanswers == [Some(24), Some(2), Some(1)]
    ensures recalls == 0
    ensures cache == [1, 1, 2, 6, 24, 120, 720]
  {
    FactorialsAt();
    FactorialTable();
    initial, answers, reanswers, recalls, cache := Session(Factorials(), Factorial, [0, 1, 4, 6], [4, 2, 0]);
    FactorialPrefix(cache);
  }

  /** The documentation example: `get(0) == 0`, `get(1) == 1`,
      `get(4) == 3`, `get(9) == 34`, then `get(3) == 2` without further
      calls, and `take` returns `[0, 1, 1, 2, 3, 5, 8, 13, 21, 34]`.
      `test_fibonacci` is the same without the `get(3)`. */
  method FibonacciScenario()
    returns (initial: seq<nat>, answers: seq<Option<nat>>, reanswers: seq<Option<nat>>, recalls: nat, cache: seq<nat>)
    ensures initial == []
    ensures answers == [Some(0), Some(1), Some(3), Some(34)]
    ensures reanswers == [Some(2)]
    ensures recalls == 0
    ensures cache == [0, 1, 1, 2, 3, 5, 8, 13, 21, 34]
  {
    FibonaccisAt();
    FibonacciTable();
    initial, answers, reanswers, recalls, cache := Session(Fibonaccis(), Fibonacci, [0, 1, 4, 9], [3]);
    FibonacciPrefix(cache);
  }

  /** A fresh `MemoIter` over a list iterator, looked up at or past the
      list's end: the answer is `None`, the cache keeps every value of the
      list, the wrapper is exhausted, and `len()` is the list's length before
      and after. */
  method Drain<T>(xs: seq<T>, idx: nat) returns (lenBefore: nat, r: Option<T>, kept: seq<T>, exhausted: bool, lenAfter: nat)
    requires |xs| <= idx
    ensures lenBefore == |xs| && lenAfter == |xs|
    ensures r == None
    ensures kept == xs
    ensures exhausted
  {
    var m := new MemoIter.New(Producer(Listed(xs), 0));
    lenBefore := m.Len();
    r := m.Get(idx);
    kept := m.sequence;
    exhausted := m.exhausted;
    lenAfter := m.Len();
  }

  /** A fresh `MemoIter` over a list iterator, looked up inside the list. */
  method Fetch<T>(xs: seq<T>, idx: nat) returns (r: Option<T>)
    requires idx < |xs|
    ensures r == Some(xs[idx])
  {
    var m := new MemoIter.New(Producer(Listed(xs), 0));
    r := m.Get(idx);
  }

  /** `test_len`: `new(0..5).len() == 5`, `new(0..=5).get(5) == Some(5)` and
      `new(0..5).get(7)` is `None`; that last lookup exhausts the range, the
      five values it pulled stay cached, and `len()` is still 5. */
  method LenScenario() returns (len: nat, five: Option<int>, seven: Option<int>, kept: seq<int>, lenAfter: nat)
    ensures len == 5
    ensures five == Some(5)
    ensures seven == None
    ensures kept == [0, 1, 2, 3, 4]
    ensures lenAfter == 5
  {
    assert Range(0, 5).source.items == [0, 1, 2, 3, 4];
    five := Fetch(RangeInclusive(0, 5).source.items, 5);
    var exhausted;
    len, seven, kept, exhausted, lenAfter := Drain(Range(0, 5).source.items, 7);
  }

  /** The capacity given to `with_capacity` does not limit the cache. */
  method CapacityScenario() returns (cached: nat)
    ensures cached == 10
  {
    FibonaccisAt();
    var m := new MemoIter.WithCapacity(2, Fibonaccis());
    var _ := LookUp(m, Fibonacci, 9);
    cached := |m.sequence|;
  }

  /** A lookup at or below an index already looked up makes no iterator call
      and returns the cached value; a value once returned is returned again. */
  method GetBelowIsFree<T>(m: MemoIter<T>, n: nat, k: nat) returns (first: Option<T>, second: Option<T>, calls: nat)
    requires m.Valid() && k <= n
    modifies m
    ensures m.Valid()
    ensures calls == 0
    ensures second == if k < |m.sequence| then Some(m.sequence[k]) else None
    ensures k == n ==> second == first
  {
    first := m.Get(n);
    var before := m.iter.cursor;
    second := m.Get(k);
    calls := m.iter.cursor - before;
  }

  /** Once exhausted, `next` keeps returning `None` without calling the
      iterator. */
  method ExhaustedStaysExhausted<T>(m: MemoIter<T>, idx: nat) returns (r: Option<T>, calls: nat)
    requires m.Valid() && m.exhausted
    modifies m
    ensures m.Valid() && m.exhausted
    ensures r == None && calls == 0
  {
    var before := m.iter.cursor;
    m.ExpandToContain(idx);
    r := m.Next();
    calls := m.iter.cursor - before;
  }
}
