/** The random source, as the generator uses it: a mutable generator that is
    advanced one draw at a time.  Its values are supplied from outside
    (`source`): the k-th draw over the half-open range [lo, hi) yields
    lo + source(k) % (hi - lo), so every value of the range can be supplied.
    A ghost trace records every draw, in order, so that contracts can state in
    which order a caller consumes the source; the generator's invariant ties
    every recorded draw to the value supplied for its position. */
module Random {
  import opened Options

  /** One draw: the half-open range it was taken from and the value it gave. */
  datatype Draw = Draw(lo: nat, hi: nat, value: nat)

  /** The ranges of a run of draws, in order. */
  ghost function Ranges(draws: seq<Draw>): (r: seq<(nat, nat)>)
    ensures |r| == |draws|
    ensures forall k :: 0 <= k < |draws| ==> r[k] == (draws[k].lo, draws[k].hi)
  {
    seq(|draws|, k requires 0 <= k < |draws| => (draws[k].lo, draws[k].hi))
  }

  /** The number of swap draws a shuffle of `n` elements takes. */
  function SwapCount(n: nat): nat {
    if n < 2 then 0 else n - 1
  }

  /** The ranges of the swap draws a shuffle of `n` elements consumes: one per
      position from the last down to the second, each over [0, position + 1). */
  ghost function ShuffleRanges(n: nat): (r: seq<(nat, nat)>)
    ensures |r| == SwapCount(n)
  {
    if n < 2 then [] else [(0, n)] + ShuffleRanges(n - 1)
  }

  /** `s` with the elements at `i` and `j` exchanged. */
  function Swapped(s: seq<char>, i: nat, j: nat): (r: seq<char>)
    requires i < |s| && j < |s|
    ensures |r| == |s|
    ensures r[i] == s[j] && r[j] == s[i]
    ensures forall k :: 0 <= k < |s| && k != i && k != j ==> r[k] == s[k]
  {
    s[i := s[j]][j := s[i]]
  }

  /** An exchange keeps the elements. */
  lemma SwappedPermutes(s: seq<char>, i: nat, j: nat)
    requires i < |s| && j < |s|
    ensures multiset(Swapped(s, i, j)) == multiset(s)
  {
  }

  /** The Fisher-Yates shuffle of the first `n` elements of `s` with the values
      `source` supplies from position `p` on: the element at n - 1 is exchanged
      with the one at source(p) % n, then the first n - 1 elements are shuffled
      with the values from p + 1 on. */
  ghost function FisherYates(s: seq<char>, n: nat, source: nat -> nat, p: nat): seq<char>
    requires n <= |s|
    decreases n
  {
    if n < 2 then s else FisherYates(Swapped(s, n - 1, source(p) % n), n - 1, source, p + 1)
  }

  /** The swap draws a shuffle of `n` elements takes from position `p` on: the
      one for position n - 1 over [0, n), then those of a shuffle of n - 1. */
  ghost function SwapDraws(source: nat -> nat, p: nat, n: nat): (r: seq<Draw>)
    ensures |r| == SwapCount(n)
    decreases n
  {
    if n < 2 then [] else [Draw(0, n, source(p) % n)] + SwapDraws(source, p + 1, n - 1)
  }

  /** The swap draws of a shuffle are over the ranges a shuffle consumes. */
  lemma {:induction false} SwapDrawsRanges(source: nat -> nat, p: nat, n: nat)
    ensures Ranges(SwapDraws(source, p, n)) == ShuffleRanges(n)
    decreases n
  {
    if n >= 2 {
      SwapDrawsRanges(source, p + 1, n - 1);
      RangesAppend([Draw(0, n, source(p) % n)], SwapDraws(source, p + 1, n - 1));
    }
  }

  /** The first step of a shuffle of at least two elements. */
  lemma FisherYatesStep(s: seq<char>, n: nat, source: nat -> nat, p: nat)
    requires 2 <= n <= |s|
    ensures FisherYates(s, n, source, p) == FisherYates(Swapped(s, n - 1, source(p) % n), n - 1, source, p + 1)
  {
  }

  /** A shuffle is a permutation, whatever values are supplied. */
  lemma {:induction false} FisherYatesPermutes(s: seq<char>, n: nat, source: nat -> nat, p: nat)
    requires n <= |s|
    ensures |FisherYates(s, n, source, p)| == |s|
    ensures multiset(FisherYates(s, n, source, p)) == multiset(s)
    decreases n
  {
    if n >= 2 {
      SwappedPermutes(s, n - 1, source(p) % n);
      FisherYatesPermutes(Swapped(s, n - 1, source(p) % n), n - 1, source, p + 1);
    }
  }

  /** The draw at position `k` of a run took the value `source` supplies for
      position `k`, reduced into its range. */
  ghost predicate Supplied(source: nat -> nat, k: nat, d: Draw) {
    d.lo < d.hi && d.value == d.lo + source(k) % (d.hi - d.lo)
  }

  /** The draws added to `before` to make `after`. */
  ghost function Since(before: seq<Draw>, after: seq<Draw>): seq<Draw>
    requires |before| <= |after|
  {
    after[|before|..]
  }

  /** `after` is `before` followed by further draws. */
  ghost predicate Extends(before: seq<Draw>, after: seq<Draw>) {
    |before| <= |after| && after[..|before|] == before
  }

  /** Ranges distribute over concatenation. */
  lemma RangesAppend(a: seq<Draw>, b: seq<Draw>)
    ensures Ranges(a + b) == Ranges(a) + Ranges(b)
  {
  }

  /** Extending twice is extending, and the added draws are concatenated. */
  lemma ExtendsTrans(t0: seq<Draw>, t1: seq<Draw>, t2: seq<Draw>)
    requires Extends(t0, t1) && Extends(t1, t2)
    ensures Extends(t0, t2)
    ensures Since(t0, t2) == Since(t0, t1) + Since(t1, t2)
  {
    assert t2[..|t1|][..|t0|] == t2[..|t0|];
  }

  class Rng {
    /** The supplied values. */
    const source: nat -> nat
    /** The number of draws taken so far. */
    var pos: nat
    /** Every draw taken so far, in order. */
    ghost var trace: seq<Draw>

    /** One draw has been recorded per position taken, and each drew the value
        supplied for its position. */
    ghost predicate Valid()
      reads this
    {
      && pos == |trace|
      && forall k :: 0 <= k < |trace| ==> Supplied(source, k, trace[k])
    }

    constructor (source: nat -> nat)
      ensures this.source == source && pos == 0 && trace == []
      ensures Valid()
    {
      this.source := source;
      pos := 0;
      trace := [];
    }

    /** `gen_range(lo, hi)`: a value of the half-open range [lo, hi).  Calling it
        with an empty range is an error of the caller. */
    method GenRange(lo: nat, hi: nat) returns (r: nat)
      requires lo < hi && Valid()
      modifies this
      ensures Valid()
      ensures lo <= r < hi
      ensures r == lo + source(old(pos)) % (hi - lo)
      ensures pos == old(pos) + 1 && trace == old(trace) + [Draw(lo, hi, r)]
    {
      r := lo + source(pos) % (hi - lo);
      pos := pos + 1;
      trace := trace + [Draw(lo, hi, r)];
    }

    /** `choose(xs)`: nothing for an empty slice (and no draw); otherwise the
        element at the index one draw over [0, |xs|) gives. */
    method Choose<T>(xs: seq<T>) returns (o: Option<T>)
      requires Valid()
      modifies this
      ensures Valid()
      ensures o.None? <==> |xs| == 0
      ensures |xs| == 0 ==> pos == old(pos) && trace == old(trace)
      ensures |xs| > 0 ==>
        && pos == old(pos) + 1
        && o == Some(xs[source(old(pos)) % |xs|])
        && trace == old(trace) + [Draw(0, |xs|, source(old(pos)) % |xs|)]
    {
      if |xs| == 0 {
        o := None;
      } else {
        var i := GenRange(0, |xs|);
        o := Some(xs[i]);
      }
    }

    /** One step of a shuffle of the first i + 1 elements: draws a position j
        over [0, i + 1) and exchanges the elements at i and j, which leaves a
        shuffle of the first i elements with the following draws. */
    method SwapStep(a: array<char>, i: nat)
      requires Valid() && 1 <= i < a.Length
      modifies this, a
      ensures Valid() && pos == old(pos) + 1
      ensures FisherYates(a[..], i, source, pos) == FisherYates(old(a[..]), i + 1, source, old(pos))
      ensures trace + SwapDraws(source, pos, i) == old(trace) + SwapDraws(source, old(pos), i + 1)
    {
      var j := GenRange(0, i + 1);
      Swap(a, i, j);
      assert a[..] == Swapped(old(a[..]), i, j);
      FisherYatesStep(old(a[..]), i + 1, source, old(pos));
    }

    /** `shuffle(a)`: permutes `a` in place.  The permutation is supplied as one
        swap draw per position, from the last position down to the second; any
        permutation can be supplied this way. */
    method Shuffle(a: array<char>)
      requires Valid()
      modifies this, a
      ensures Valid()
      ensures a[..] == FisherYates(old(a[..]), a.Length, source, old(pos))
      ensures multiset(a[..]) == old(multiset(a[..]))
      ensures pos == old(pos) + SwapCount(a.Length)
      ensures trace == old(trace) + SwapDraws(source, old(pos), a.Length)
      ensures Extends(old(trace), trace)
      ensures Ranges(Since(old(trace), trace)) == ShuffleRanges(a.Length)
    {
      var i := a.Length;
      while i >= 2
        invariant 0 <= i <= a.Length
        invariant Valid()
        invariant FisherYates(a[..], i, source, pos) == FisherYates(old(a[..]), a.Length, source, old(pos))
        invariant trace + SwapDraws(source, pos, i) == old(trace) + SwapDraws(source, old(pos), a.Length)
      {
        i := i - 1;
        SwapStep(a, i);
      }
      assert SwapDraws(source, pos, i) == [];
      assert trace == old(trace) + SwapDraws(source, old(pos), a.Length);
      assert Since(old(trace), trace) == SwapDraws(source, old(pos), a.Length);
      SwapDrawsRanges(source, old(pos), a.Length);
      FisherYatesPermutes(old(a[..]), a.Length, source, old(pos));
    }
  }

  /** Exchanges two elements of an array, leaving the others. */
  method Swap(a: array<char>, i: nat, j: nat)
    requires i < a.Length && j < a.Length
    modifies a
    ensures a[i] == old(a[j]) && a[j] == old(a[i])
    ensures forall k :: 0 <= k < a.Length && k != i && k != j ==> a[k] == old(a[k])
    ensures multiset(a[..]) == old(multiset(a[..]))
  {
    a[i], a[j] := a[j], a[i];
  }
}
