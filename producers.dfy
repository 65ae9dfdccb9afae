/** The wrapped iterator, seen from outside as a black box.

    A `Source` says what the iterator's k-th call to `next()` returns; a
    `Producer` pairs it with a cursor, the number of calls made so far. The
    memoizer only ever asks a producer for its next value, so nothing else
    about the iterator is modelled. */
module Producers {

  datatype Option<T> = None | Some(value: T)

  /** What successive calls to `next()` return.
      `Stream` is an arbitrary iterator, finite or infinite, with no length
      capability; `Listed` is an exact-size iterator over a finite list
      (a range such as `0..5`), which can report how many values remain. */
  datatype Source<T> =
    | Stream(gen: nat -> Option<T>)
    | Listed(items: seq<T>)
  {
    /** The result of the k-th call (counted from 0) to `next()`. */
    function At(k: nat): (r: Option<T>) {
      match this
      case Stream(gen) => gen(k)
      case Listed(items) => if k < |items| then Some(items[k]) else None
    }
  }

  /** An iterator in a given state: its source and how many times it has
      been asked for a value. */
  datatype Producer<T> = Producer(source: Source<T>, cursor: nat)
  {
    /** One call to `next()`: the value it yields and the advanced iterator. */
    function Next(): (r: (Option<T>, Producer<T>)) {
      (source.At(cursor), Producer(source, cursor + 1))
    }

    /** `ExactSizeIterator::len` of the wrapped iterator: exactly `n` further
        calls yield a value and the one after them yields nothing. */
    function Len(): (n: nat)
      requires source.Listed?
      ensures forall k :: cursor <= k < cursor + n ==> source.At(k).Some?
      ensures source.At(cursor + n).None?
    {
      if cursor < |source.items| then |source.items| - cursor else 0
    }
  }

  /** Reference definition of memoized expansion: the values obtained by
      calling `next()` up to `n` times, starting at call number `from`, and
      stopping at the first call that yields nothing. */
  function Run<T>(src: Source<T>, from: nat, n: nat): (r: seq<T>)
    ensures |r| <= n
    ensures forall i :: 0 <= i < |r| ==> src.At(from + i) == Some(r[i])
    ensures |r| < n ==> src.At(from + |r|).None?
    decreases n
  {
    if n == 0 then []
    else
      match src.At(from)
      case None => []
      case Some(v) => [v] + Run(src, from + 1, n - 1)
  }

  /** A list of values that matches the producer call by call, and either has
      length `n` or is followed by a call that yields nothing, is `Run`. */
  lemma {:induction false} RunMatches<T>(src: Source<T>, from: nat, n: nat, xs: seq<T>)
    requires forall i :: 0 <= i < |xs| ==> src.At(from + i) == Some(xs[i])
    requires |xs| == n || (|xs| < n && src.At(from + |xs|).None?)
    ensures Run(src, from, n) == xs
    decreases n
  {
    if n > 0 {
      if xs == [] {
        assert src.At(from).None?;
      } else {
        assert src.At(from) == Some(xs[0]);
        forall i | 0 <= i < |xs[1..]|
          ensures src.At(from + 1 + i) == Some(xs[1..][i])
        {
          assert src.At(from + (i + 1)) == Some(xs[i + 1]);
        }
        RunMatches(src, from + 1, n - 1, xs[1..]);
        assert xs == [xs[0]] + xs[1..];
      }
    }
  }

  /** Driving the producer further only extends what was already produced. */
  lemma {:induction false} RunPrefix<T>(src: Source<T>, from: nat, a: nat, b: nat)
    requires a <= b
    ensures Run(src, from, a) <= Run(src, from, b)
    ensures |Run(src, from, a)| < a ==> Run(src, from, b) == Run(src, from, a)
    decreases a
  {
    if a > 0 && src.At(from).Some? {
      RunPrefix(src, from + 1, a - 1, b - 1);
    }
  }

  /** At most one count can be "all values present, then nothing". */
  lemma FirstNoneUnique<T>(src: Source<T>, from: nat, a: nat, b: nat)
    requires forall k :: from <= k < from + a ==> src.At(k).Some?
    requires src.At(from + a).None?
    requires forall k :: from <= k < from + b ==> src.At(k).Some?
    requires src.At(from + b).None?
    ensures a == b
  {
  }
}
