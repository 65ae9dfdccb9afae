# memoiter in Dafny

A model of `MemoIter<I, T>` from `src/lib.rs`, a memoizing iterator. It
pairs an iterator with a `Vec<T>` that stores every value the iterator
returns. Past values can then be fetched by index. Fetching an index that is
not yet stored drives the iterator forward, storing every value on the way,
until the index is reached or the iterator runs out.

## Layout

- `producers.dfy`, module `Producers`: the wrapped iterator as a black box.
  - A `Source` gives the result of the k-th call to `next()`. `Stream(gen)`
    is any iterator, finite or infinite, with no length. `Listed(items)` is
    an exact-size iterator over a list, such as a range.
  - A `Producer` is a source plus a cursor, the number of `next()` calls made
    so far. "The iterator was not called" therefore means "the producer
    value did not change".
  - `Run(src, from, n)` is the reference definition of memoized expansion.
    It gives the values from calling `next()` up to `n` times, stopping at
    the first `None`.
- `memo.dfy`, module `Memo`: `class MemoIter` with the three fields of the
  struct (`exhausted`, the iterator, `sequence`) and each operation of
  `src/lib.rs`. The class invariant `Valid()` says:
  - element i of the cache is the i-th value the iterator produced since it
    was wrapped;
  - the iterator has been called exactly once per cached value, plus once
    more if it is exhausted;
  - `exhausted` is set exactly when a call returned `None`.

  The ghost constant `origin` is the iterator's cursor when it was wrapped.
  The iterator handed to `new` may already be partly consumed.
- `witnesses.dfy`, module `Witnesses`: the iterators used by the tests.
  These are `lo..hi` and `lo..=hi`, and
  `successors(...).map(...)` chains for factorials and Fibonacci numbers.
- `scenarios.dfy`, module `Scenarios`: the tests and the doc example from
  `src/lib.rs`. Each is a method whose postcondition is what the test
  asserts. The module also holds two general consequences of the
  contracts: a lookup below an index already looked up makes no iterator
  call, and an exhausted wrapper never calls the iterator again.

The iterator is a value field, because the struct owns its iterator by value.
No other object can advance it.

Some notes on how the model reads the source:

- `len()` is `sequence.len() + iterator.len()`. That is the total number of
  values the wrapper will ever hold, not the number that `next()` still has
  to return. The model states it that way, and `ExpandToContain`, `Get` and
  `Next` each keep it unchanged.
- `src/lib.rs` has no slice retrieval, no non-forcing lookup, no
  constructor from a pre-filled cache and no count or exhaustion accessors,
  so none is modelled.

## Model

| member | source | states |
|---|---|---|
| Producers.Producer.Len | src/lib.rs:121 | the inner iterator's exact length `n`: the next `n` calls yield values and the one after them yields `None` |
| Producers.Run | src/lib.rs:82-93 | reference expansion: at most `n` values; value i is what call `from + i` produced; a shorter result ends at a call that returned `None` |
| Producers.RunMatches | src/lib.rs:85-91 | any list that matches the iterator call by call, and either has length `n` or stops at a `None`, is `Run(src, from, n)` |
| Producers.RunPrefix | src/lib.rs:86-90 | driving further only extends the result; once a `None` was hit, driving further changes nothing |
| Memo.MemoIter.New | src/lib.rs:55-62 | empty cache, not exhausted, the iterator stored unchanged, invariant established |
| Memo.MemoIter.WithCapacity | src/lib.rs:64-73 | same state as `new`: the capacity does not enter the state, so it cannot bound the cache |
| Memo.MemoIter.From | src/lib.rs:131-137 | same state as `new` over the converted iterator |
| Memo.MemoIter.CacheIsRun | src/lib.rs:46-48 | the cache is exactly `Run` from `origin` over its own length; once exhausted, driving further yields the same cache |
| Memo.MemoIter.ExpandToContain | src/lib.rs:75-96 | afterwards `exhausted` holds or `idx` is cached; nothing changes if it was already exhausted or `idx` was cached; the old cache is a prefix of the new one; `exhausted` is set exactly when the cache is too short for `idx`; if not exhausted, the length is exactly `max(old length, idx + 1)`; the cache is `Run` to that length; `len()` is unchanged |
| Memo.MemoIter.Fill | src/lib.rs:82-93 | the `for i in len..=idx` loop: append-only, one call per missing index, stops at the first `None` and keeps what it appended |
| Memo.MemoIter.Get | src/lib.rs:98-104 | everything `ExpandToContain` states, and the result is `Some(sequence[idx])` when `idx` is cached and `None` otherwise; this equals the iterator's call `origin + idx` unless the iterator ran out first |
| Memo.MemoIter.Take | src/lib.rs:106-111 | returns the cache and the iterator as they are; the cache is `Run` from `origin`; the iterator's cursor sits right after the cached values and the final `None` |
| Memo.MemoIter.Len | src/lib.rs:115-122 | the total count `n` of values after `origin`: calls `origin .. origin + n - 1` yield values and call `origin + n` yields `None`; at least the cache length |
| Memo.MemoIter.Next | src/lib.rs:141-161 | once exhausted, returns `None` and changes nothing; otherwise returns the iterator's next result and appends exactly that value, or sets `exhausted` on `None`; the cache is `Run` to old length + 1; `len()` is unchanged |
| Witnesses.Interval | src/lib.rs:223-226 | the integers of `lo..hi`: `max(0, hi - lo)` of them, element i being `lo + i` |
| Witnesses.FactorialStepIterate | src/lib.rs:173-179 | the factorial `successors` state after k steps is `(k, k!)` |
| Witnesses.FibonacciStepIterate | src/lib.rs:205-208 | the Fibonacci `successors` state after k steps is `(F(k), F(k + 1))` |
| Witnesses.FactorialTable | src/lib.rs:185-198 | the factorials 0! to 6! that `test_factorial` expects |
| Witnesses.FibonacciTable | src/lib.rs:30-40 | the Fibonacci numbers F(0) to F(9) that the doc example and `test_fibonacci` expect |
| Witnesses.FactorialsAt | src/lib.rs:173-179 | the factorial iterator's k-th call yields `Some(k!)` |
| Witnesses.FibonaccisAt | src/lib.rs:205-208 | the Fibonacci iterator's k-th call yields `Some(F(k))` |
| Scenarios.YieldsCache | src/lib.rs:86 | over an iterator that never runs out, the wrapper is never exhausted and index i of the cache holds the i-th value |
| Scenarios.LookUp | src/lib.rs:100-104 | `get` over such an iterator returns the value and grows the cache to `max(old length, idx + 1)` |
| Scenarios.LookUpAll | src/lib.rs:185-191 | a series of `get`s returns every requested value |
| Scenarios.ReachBelow | src/lib.rs:189-191 | lookups below the cache length leave its length as it is |
| Scenarios.Session | src/lib.rs:170-201 | the shape of both tests: starts empty, first lookups return their values, later lookups below the cached length make zero iterator calls, and `take` returns `f(0), f(1), ...` |
| Scenarios.FactorialScenario | src/lib.rs:170-201 | `test_factorial`: answers 1, 1, 24, 720, then 24, 2, 1 with no further calls; cache `[1, 1, 2, 6, 24, 120, 720]` |
| Scenarios.FibonacciScenario | src/lib.rs:21-41 | the doc example, which contains `test_fibonacci` (src/lib.rs:203-219): answers 0, 1, 3, 34, then 2 with no further calls; cache `[0, 1, 1, 2, 3, 5, 8, 13, 21, 34]` |
| Scenarios.Drain | src/lib.rs:226 | a lookup past the end of a list returns `None`, exhausts the wrapper and keeps the whole list cached; `len()` is the list length before and after |
| Scenarios.Fetch | src/lib.rs:224 | a lookup inside a list returns its element |
| Scenarios.LenScenario | src/lib.rs:221-227 | `test_len`: `new(0..5).len() == 5`, `new(0..=5).get(5) == Some(5)`, `new(0..5).get(7)` is `None`, and afterwards `[0, 1, 2, 3, 4]` is cached and `len()` is still 5 |
| Scenarios.CapacityScenario | src/lib.rs:64-66 | `with_capacity(2, ..)` followed by `get(9)` caches 10 values |
| Scenarios.GetBelowIsFree | src/lib.rs:35-37 | `get(k)` after `get(n)` with `k <= n` makes zero iterator calls, returns the cached value, and equals the first answer when `k == n` |
| Scenarios.ExhaustedStaysExhausted | src/lib.rs:76 | once exhausted, expansion and `next` make zero iterator calls, and `next` returns `None` |

## Left out

- `reserve` and `shrink_to_fit` (src/lib.rs:80, 89, 156): capacity hints with no effect on contents.
- The `#[cfg(test)] println!` lines, the `println!` of the tests and `#[derive(Debug)]`: output only.
- Machine integers and allocation: indices and lengths are `nat`. The model therefore has no `usize` overflow of `idx - len + 1` or of `sequence.len() + iterator.len()`. It also has no allocation bound: the source panics with a capacity overflow when `reserve(idx - len + 1)` (src/lib.rs:80) or `Vec::with_capacity(capacity)` (src/lib.rs:71) asks for more than `isize::MAX` bytes, before the iterator is called. So `MemoIter::new(0..5).get(1 << 62)` panics in the source, while `Get` and `Drain` promise `None` with the whole list cached, and `WithCapacity` accepts any `nat`. The test closures compute over `u32`, which would overflow at 13! and F(48); the witnesses compute over unbounded naturals, and the tests stay far below those bounds.
- Rust trait machinery: `IntoIterator`, the `T: Copy` bounds, and the conditional `ExactSizeIterator` impl. The last is modelled as a `requires` that the iterator is a `Listed` source. The default `size_hint` of the `Iterator` impl is not modelled.
- Memo.MemoIter.From: takes an iterator, whose `into_iter()` is itself. Conversions from other `IntoIterator` collections are not modelled.
- Memo.MemoIter.Take: Dafny cannot consume an object, so after `Take` the wrapper still exists. The model returns the pair and states the invariant it satisfies.
- Memo.MemoIter.Get: returns the value, not a reference `&T`; borrows and lifetimes are not modelled. It does not model the capacity-overflow panic of `reserve` for huge indices (see the machine-integer line above).
- Panics raised by the wrapped iterator's own `next()`: a `Source` is total, so a call always returns `Some` or `None`.
- Mixing `next()` and `get` is covered only by the contracts of `Next` and `Get`. No concrete scenario combines them.
