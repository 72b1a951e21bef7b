/**
 * The three array idioms the feed writes use: `[x, ...xs].slice(0, cap)`,
 * `Array.from(new Set(xs))` and `xs.filter(...)` (through IsSubsequence).
 */
module Lists {

  function Min(a: int, b: int): int { if a <= b then a else b }

  /**
   * `[x, ...xs].slice(0, cap)`: a bounded most-recent-first log. The new
   * element comes first, the list never exceeds `cap`, and what is dropped
   * is the tail of the old list, its oldest entries.
   */
  function PrependCapped<T>(x: T, xs: seq<T>, cap: nat): (r: seq<T>)
    requires cap > 0
    ensures |r| == Min(|xs| + 1, cap) && |r| <= cap
    ensures r[0] == x
    ensures r == [x] + xs[..Min(|xs|, cap - 1)]
  {
    ([x] + xs)[..Min(|xs| + 1, cap)]
  }

  function Reverse<T>(s: seq<T>): (r: seq<T>)
    ensures |r| == |s|
  {
    if s == [] then [] else Reverse(s[1..]) + [s[0]]
  }

  lemma {:induction false} ReverseAt<T>(s: seq<T>, k: nat)
    requires k < |s|
    ensures Reverse(s)[k] == s[|s| - 1 - k]
  {
    if k < |s| - 1 {
      ReverseAt(s[1..], k);
    }
  }

  /** `xs.forEach(x => log = [x, ...log].slice(0, cap))`: entries arriving one after another. */
  function PrependEach<T>(log: seq<T>, xs: seq<T>, cap: nat): seq<T>
    requires cap > 0
    decreases |xs|
  {
    if xs == [] then log else PrependEach(PrependCapped(xs[0], log, cap), xs[1..], cap)
  }

  lemma TakeOfConcatTake<T>(a: seq<T>, b: seq<T>, k: nat, m: nat)
    requires k <= |b| && m <= |a| + k
    ensures (a + b[..k])[..m] == (a + b)[..m]
  {
  }

  /**
   * A run of bounded prepends keeps exactly the `cap` newest entries, newest
   * first, followed by as much of the old log as still fits.
   */
  lemma {:induction false} PrependEachKeepsNewest<T>(log: seq<T>, xs: seq<T>, cap: nat)
    requires cap > 0
    requires |log| <= cap || xs != []  // an over-long log is only cut once an entry arrives
    ensures PrependEach(log, xs, cap) == (Reverse(xs) + log)[..Min(|xs| + |log|, cap)]
    decreases |xs|
  {
    if xs == [] {
      assert Reverse(xs) + log == log;
    } else {
      var log' := PrependCapped(xs[0], log, cap);
      PrependEachKeepsNewest(log', xs[1..], cap);
      var a := Reverse(xs[1..]);
      assert Reverse(xs) == a + [xs[0]];
      var k := Min(|log| + 1, cap);
      TakeOfConcatTake(a, [xs[0]] + log, k, Min(|xs| - 1 + k, cap));
      assert a + ([xs[0]] + log) == Reverse(xs) + log;
    }
  }

  /** `Array.from(new Set(xs))`: first occurrences, in order. */
  function Dedup<T(==)>(xs: seq<T>): (r: seq<T>)
    decreases |xs|
  {
    if xs == [] then []
    else
      var d := Dedup(xs[..|xs| - 1]);
      if xs[|xs| - 1] in d then d else d + [xs[|xs| - 1]]
  }

  predicate NoDuplicates<T(==)>(xs: seq<T>) {
    forall i, j :: 0 <= i < j < |xs| ==> xs[i] != xs[j]
  }

  /** `Dedup` keeps exactly the elements of its input, once each. */
  lemma {:induction false} DedupSpec<T>(xs: seq<T>)
    ensures NoDuplicates(Dedup(xs))
    ensures forall x :: x in Dedup(xs) <==> x in xs
    decreases |xs|
  {
    if xs != [] {
      var init := xs[..|xs| - 1];
      DedupSpec(init);
      assert xs == init + [xs[|xs| - 1]];
    }
  }

  /** A list without duplicates is its own deduplication. */
  lemma {:induction false} DedupOfDistinct<T>(xs: seq<T>)
    requires NoDuplicates(xs)
    ensures Dedup(xs) == xs
    decreases |xs|
  {
    if xs != [] {
      var init := xs[..|xs| - 1];
      assert NoDuplicates(init);
      DedupOfDistinct(init);
      assert xs[|xs| - 1] !in init;
      assert init + [xs[|xs| - 1]] == xs;
    }
  }

  /** Appending an element extends the deduplication only when the input did not already hold it. */
  lemma DedupSnoc<T>(xs: seq<T>, x: T)
    ensures Dedup(xs + [x]) == if x in xs then Dedup(xs) else Dedup(xs) + [x]
  {
    assert (xs + [x])[..|xs|] == xs;
    DedupSpec(xs);
  }

  /** Adding an element that is already present changes nothing: set semantics. */
  lemma DedupAddTwice<T>(xs: seq<T>, x: T)
    ensures Dedup(Dedup(xs + [x]) + [x]) == Dedup(xs + [x])
  {
    var d := Dedup(xs + [x]);
    DedupSpec(xs + [x]);
    DedupSnoc(d, x);
    DedupOfDistinct(d);
  }

  /** `sub` is `xs` with some elements removed, the rest in their original order. */
  predicate IsSubsequence<T(==)>(sub: seq<T>, xs: seq<T>)
    decreases |xs|
  {
    if sub == [] then true
    else if xs == [] then false
    else if sub[0] == xs[0] then IsSubsequence(sub[1..], xs[1..])
    else IsSubsequence(sub, xs[1..])
  }
}
