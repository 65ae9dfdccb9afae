/** `MemoIter`: an iterator paired with an append-only cache of everything it
    has returned, so that past values can be retrieved by index. */
module Memo {
  import opened Producers

  function Max(a: nat, b: nat): (m: nat) {
    if a < b then b else a
  }

  class MemoIter<T> {
    /** Set once the wrapped iterator has returned `None`; never reset. */
    var exhausted: bool
    /** The wrapped iterator, owned by value (the source calls this field
        `iterator`, a reserved word in Dafny). */
    var iter: Producer<T>
    /** Every value the iterator has returned, in order. */
    var sequence: seq<T>
    /** How many calls the iterator had answered before it was wrapped. */
    ghost const origin: nat

    /** Element i of the cache is the i-th value the iterator produced since
        it was wrapped, every call to the iterator stored a value except a
        final `None` that set `exhausted`, and that `None` is recorded. */
    ghost predicate Valid()
      reads this
    {
      && iter.cursor == origin + |sequence| + (if exhausted then 1 else 0)
      && (forall i :: 0 <= i < |sequence| ==> iter.source.At(origin + i) == Some(sequence[i]))
      && (exhausted ==> iter.source.At(origin + |sequence|).None?)
    }

    /** `MemoIter::new`: an empty cache around the given iterator. */
    constructor New(it: Producer<T>)
      ensures Valid()
      ensures sequence == [] && !exhausted
      ensures iter == it && origin == it.cursor
    {
      exhausted := false;
      iter := it;
      sequence := [];
      origin := it.cursor;
    }

    /** `MemoIter::with_capacity`: the capacity is only an allocation hint,
        so the state is that of `New`; it does not bound the cache. */
    constructor WithCapacity(capacity: nat, it: Producer<T>)
      ensures Valid()
      ensures sequence == [] && !exhausted
      ensures iter == it && origin == it.cursor
    {
      exhausted := false;
      iter := it;
      sequence := [];
      origin := it.cursor;
    }

    /** `From::from`: `into_iter()` of an iterator is the iterator itself, and
        the result is wrapped as by `New`. */
    constructor From(into: Producer<T>)
      ensures Valid()
      ensures sequence == [] && !exhausted
      ensures iter == into && origin == into.cursor
    {
      exhausted := false;
      iter := into;
      sequence := [];
      origin := into.cursor;
    }

    /** The cache is the reference expansion of the iterator from `origin`. */
    lemma CacheIsRun()
      requires Valid()
      ensures sequence == Run(iter.source, origin, |sequence|)
      ensures exhausted ==> forall n :: |sequence| <= n ==> Run(iter.source, origin, n) == sequence
    {
      RunMatches(iter.source, origin, |sequence|, sequence);
      if exhausted {
        forall n | |sequence| <= n
          ensures Run(iter.source, origin, n) == sequence
        {
          RunMatches(iter.source, origin, n, sequence);
        }
      }
    }

    /** `expand_to_contain`: drive the iterator until the cache holds index
        `idx` or the iterator returns `None`. */
    method ExpandToContain(idx: nat)
      requires Valid()
      modifies this
      ensures Valid() && iter.source == old(iter.source)
      ensures exhausted || idx < |sequence|
      ensures old(exhausted) || idx < |old(sequence)| ==> unchanged(this)
      ensures old(sequence) <= sequence
      ensures exhausted == (old(exhausted) || |sequence| <= idx)
      ensures !exhausted ==> |sequence| == Max(|old(sequence)|, idx + 1)
      ensures sequence == Run(iter.source, origin, Max(|old(sequence)|, idx + 1))
      ensures iter.source.Listed? ==> Len() == old(Len())
    {
      if !exhausted {
        var len := |sequence|;
        if idx >= len {
          Fill(idx);
        }
      }
      RunMatches(iter.source, origin, Max(|old(sequence)|, idx + 1), sequence);
      if iter.source.Listed? {
        FirstNoneUnique(iter.source, origin, old(Len()), Len());
      }
    }

    /** The loop of `expand_to_contain`, `for i in len..=idx`: one call to the
        iterator per missing index, stopping at the first `None`. */
    method Fill(idx: nat)
      requires Valid() && !exhausted && |sequence| <= idx
      modifies this
      ensures Valid() && iter.source == old(iter.source)
      ensures old(sequence) <= sequence
      ensures exhausted == (|sequence| <= idx)
      ensures !exhausted ==> |sequence| == idx + 1
    {
      for i := |sequence| to idx + 1
        invariant Valid() && !exhausted && iter.source == old(iter.source)
        invariant |sequence| == i
        invariant old(sequence) <= sequence
      {
        var (next, rest) := iter.Next();
        iter := rest;
        match next
        case Some(v) =>
          sequence := sequence + [v];
        case None =>
          exhausted := true;
          return;
      }
    }

    /** `get`: force evaluation up to `idx`, then look the index up. */
    method Get(idx: nat) returns (r: Option<T>)
      requires Valid()
      modifies this
      ensures Valid() && iter.source == old(iter.source)
      ensures r == if idx < |sequence| then Some(sequence[idx]) else None
      ensures r == if exhausted && |sequence| <= idx then None else iter.source.At(origin + idx)
      ensures exhausted || idx < |sequence|
      ensures old(exhausted) || idx < |old(sequence)| ==> unchanged(this)
      ensures old(sequence) <= sequence
      ensures exhausted == (old(exhausted) || |sequence| <= idx)
      ensures !exhausted ==> |sequence| == Max(|old(sequence)|, idx + 1)
      ensures sequence == Run(iter.source, origin, Max(|old(sequence)|, idx + 1))
      ensures iter.source.Listed? ==> Len() == old(Len())
    {
      ExpandToContain(idx);
      r := if idx < |sequence| then Some(sequence[idx]) else None;
    }

    /** `take`: the cache and the iterator, handed back as they are. The
        iterator resumes right after the cached values (and the `None` that
        exhausted it, if any). */
    function Take(): (r: (seq<T>, Producer<T>))
      reads this
      requires Valid()
      ensures r.0 == sequence && r.1 == iter
      ensures r.0 == Run(r.1.source, origin, |r.0|)
      ensures r.1.cursor == origin + |r.0| + (if exhausted then 1 else 0)
    {
      RunMatches(iter.source, origin, |sequence|, sequence);
      (sequence, iter)
    }

    /** `ExactSizeIterator::len`, available when the wrapped iterator has an
        exact size: the number of values cached so far plus those the
        iterator still holds, which is the total number of values the
        iterator yields after `origin`. */
    function Len(): (n: nat)
      reads this
      requires Valid() && iter.source.Listed?
      ensures |sequence| <= n
      ensures forall k :: origin <= k < origin + n ==> iter.source.At(k).Some?
      ensures iter.source.At(origin + n).None?
    {
      assert forall k :: origin <= k < origin + |sequence| ==> iter.source.At(k) == Some(sequence[k - origin]);
      |sequence| + iter.Len()
    }

    /** `Iterator::next`: pull one value, cache it and return it. */
    method Next() returns (r: Option<T>)
      requires Valid()
      modifies this
      ensures Valid() && iter.source == old(iter.source)
      ensures old(exhausted) ==> r == None && unchanged(this)
      ensures !old(exhausted) ==> r == old(iter.source.At(iter.cursor))
      ensures r.Some? ==> sequence == old(sequence) + [r.value]
      ensures r.None? ==> sequence == old(sequence)
      ensures exhausted == (old(exhausted) || r.None?)
      ensures sequence == Run(iter.source, origin, |old(sequence)| + 1)
      ensures iter.source.Listed? ==> Len() == old(Len())
    {
      if !exhausted {
        var (next, rest) := iter.Next();
        iter := rest;
        match next
        case Some(v) =>
          sequence := sequence + [v];
          r := Some(v);
        case None =>
          exhausted := true;
          r := None;
      } else {
        r := None;
      }
      RunMatches(iter.source, origin, |old(sequence)| + 1, sequence);
    }
  }
}
