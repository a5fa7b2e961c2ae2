/**
  Sequence operations behind the array methods the application uses
  (`filter`, `map` with a replacement, `reduce` to a sum, `new Set(...)`),
  with the lemmas the record store and the aggregators rely on.
  The recursive definitions peel the LAST element, so that appending one
  record (the store's only way of growing a collection) unfolds directly.
*/
module Lists {

  /** `ys` can be obtained from `xs` by deleting elements: order is kept. */
  ghost predicate IsSubsequence<T>(ys: seq<T>, xs: seq<T>)
    decreases |xs|
  {
    if ys == [] then true
    else if xs == [] then false
    else (ys[|ys| - 1] == xs[|xs| - 1] && IsSubsequence(ys[..|ys| - 1], xs[..|xs| - 1]))
         || IsSubsequence(ys, xs[..|xs| - 1])
  }

  /** `Array.prototype.filter`. */
  function Filter<T>(xs: seq<T>, p: T -> bool): (r: seq<T>)
    ensures |r| <= |xs|
    ensures forall i :: 0 <= i < |r| ==> p(r[i])
  {
    if xs == [] then []
    else
      var init, last := xs[..|xs| - 1], xs[|xs| - 1];
      assert xs == init + [last];
      var kept := Filter(init, p);
      if p(last) then kept + [last] else kept
  }

  /** `Array.prototype.reduce((acc, x) => acc + f(x), 0)`. */
  function Sum<T>(xs: seq<T>, f: T -> real): real
  {
    if xs == [] then 0.0 else Sum(xs[..|xs| - 1], f) + f(xs[|xs| - 1])
  }

  /** `xs.map(x => matches(x) ? r : x)`. */
  function ReplaceWhere<T>(xs: seq<T>, matches: T -> bool, r: T): seq<T>
  {
    seq(|xs|, i requires 0 <= i < |xs| => if matches(xs[i]) then r else xs[i])
  }

  /** The predicate "has an id equal to `id`", for a record type whose id is `idOf`. */
  function IdIs<T>(idOf: T -> string, id: string): T -> bool
  {
    x => idOf(x) == id
  }

  /** The predicate "has an id different from `id`". */
  function IdIsNot<T>(idOf: T -> string, id: string): T -> bool
  {
    x => idOf(x) != id
  }

  /** `xs.map(x => x.id === r.id ? r : x)`: replace every record carrying `r`'s id. */
  function ReplaceById<T>(xs: seq<T>, idOf: T -> string, r: T): seq<T>
  {
    ReplaceWhere(xs, IdIs(idOf, idOf(r)), r)
  }

  /** `xs.filter(x => x.id !== id)`: drop every record carrying `id`. */
  function RemoveById<T>(xs: seq<T>, idOf: T -> string, id: string): seq<T>
  {
    Filter(xs, IdIsNot(idOf, id))
  }

  predicate NoDuplicates<T(==)>(xs: seq<T>)
  {
    forall i, j :: 0 <= i < j < |xs| ==> xs[i] != xs[j]
  }

  /** Index of the first occurrence of `x` in `xs`. */
  function FirstIndex<T(==)>(xs: seq<T>, x: T): (k: nat)
    requires x in xs
    ensures k < |xs| && xs[k] == x && x !in xs[..k]
  {
    if xs[0] == x then 0 else 1 + FirstIndex(xs[1..], x)
  }

  /** `[...new Set(xs)]`: the distinct elements in order of first occurrence. */
  function Distinct<T(==)>(xs: seq<T>): (r: seq<T>)
    ensures forall i :: 0 <= i < |r| ==> r[i] in xs
    ensures forall i :: 0 <= i < |xs| ==> xs[i] in r
    ensures NoDuplicates(r)
  {
    if xs == [] then []
    else
      var init, last := xs[..|xs| - 1], xs[|xs| - 1];
      assert xs == init + [last];
      var seen := Distinct(init);
      if last in seen then seen else seen + [last]
  }

  // ---------------------------------------------------------------- Filter

  lemma {:induction false} FilterAppend<T>(xs: seq<T>, ys: seq<T>, p: T -> bool)
    ensures Filter(xs + ys, p) == Filter(xs, p) + Filter(ys, p)
    decreases |ys|
  {
    if ys == [] {
      assert xs + ys == xs;
    } else {
      var init, last := ys[..|ys| - 1], ys[|ys| - 1];
      assert (xs + ys)[..|xs + ys| - 1] == xs + init;
      assert (xs + ys)[|xs + ys| - 1] == last;
      FilterAppend(xs, init, p);
    }
  }

  /** Filtering a one-element prefix, for definitions that peel the first element. */
  lemma FilterCons<T>(x: T, xs: seq<T>, p: T -> bool)
    ensures Filter([x] + xs, p) == (if p(x) then [x] else []) + Filter(xs, p)
  {
    FilterAppend([x], xs, p);
    assert [x][..0] == [];
  }

  /** What the filter keeps: exactly the elements that satisfy `p`, in their original order. */
  lemma {:induction false} FilterMembers<T>(xs: seq<T>, p: T -> bool)
    ensures forall x :: x in Filter(xs, p) <==> x in xs && p(x)
    ensures IsSubsequence(Filter(xs, p), xs)
  {
    if xs != [] {
      var init, last := xs[..|xs| - 1], xs[|xs| - 1];
      assert xs == init + [last];
      FilterMembers(init, p);
    }
  }

  /** Putting the same element in front of two lists keeps the relation between their filters. */
  lemma FilterConsBoth<T>(h: T, xs: seq<T>, ys: seq<T>, p: T -> bool, tail: seq<T>)
    requires Filter(ys, p) == Filter(xs, p) + tail
    ensures Filter([h] + ys, p) == Filter([h] + xs, p) + tail
  {
    var fh := if p(h) then [h] else [];
    FilterCons(h, ys, p);
    FilterCons(h, xs, p);
    AppendAssoc(fh, Filter(xs, p), tail);
  }

  lemma AppendAssoc<T>(a: seq<T>, b: seq<T>, c: seq<T>)
    ensures a + (b + c) == (a + b) + c
  {
  }

  /** A filter that keeps everything is the identity. */
  lemma {:induction false} FilterKeepsAll<T>(xs: seq<T>, p: T -> bool)
    requires forall x :: x in xs ==> p(x)
    ensures Filter(xs, p) == xs
  {
    if xs != [] {
      var init := xs[..|xs| - 1];
      assert xs == init + [xs[|xs| - 1]];
      FilterKeepsAll(init, p);
    }
  }

  /** A filter that keeps nothing yields the empty sequence. */
  lemma FilterKeepsNone<T>(xs: seq<T>, p: T -> bool)
    requires forall x :: x in xs ==> !p(x)
    ensures Filter(xs, p) == []
  {
  }

  /** Two predicates that agree on the elements give the same filter. */
  lemma {:induction false} FilterExt<T>(xs: seq<T>, p: T -> bool, q: T -> bool)
    requires forall x :: x in xs ==> p(x) == q(x)
    ensures Filter(xs, p) == Filter(xs, q)
  {
    if xs != [] {
      var init := xs[..|xs| - 1];
      assert xs == init + [xs[|xs| - 1]];
      FilterExt(init, p, q);
    }
  }

  /** A weaker predicate keeps a super-sequence: `Filter(xs, p)` is a subsequence of `Filter(xs, q)`. */
  lemma {:induction false} FilterMonotone<T>(xs: seq<T>, p: T -> bool, q: T -> bool)
    requires forall x :: x in xs && p(x) ==> q(x)
    ensures IsSubsequence(Filter(xs, p), Filter(xs, q))
  {
    if xs != [] {
      var init, last := xs[..|xs| - 1], xs[|xs| - 1];
      assert xs == init + [last];
      FilterMonotone(init, p, q);
      var fp, fq := Filter(init, p), Filter(init, q);
      if p(last) {
        assert (fp + [last])[..|fp|] == fp;
        assert (fq + [last])[..|fq|] == fq;
      } else if q(last) {
        assert (fq + [last])[..|fq|] == fq;
      }
    }
  }

  /** Filtering never raises the multiplicity of an element, and removes exactly those `p` rejects. */
  lemma {:induction false} FilterMultiplicity<T>(xs: seq<T>, p: T -> bool, x: T)
    ensures multiset(Filter(xs, p))[x] == if p(x) then multiset(xs)[x] else 0
  {
    if xs != [] {
      var init, last := xs[..|xs| - 1], xs[|xs| - 1];
      assert xs == init + [last];
      FilterMultiplicity(init, p, x);
    }
  }

  // ---------------------------------------------------------------- Sum

  lemma {:induction false} SumAppend<T>(xs: seq<T>, ys: seq<T>, f: T -> real)
    ensures Sum(xs + ys, f) == Sum(xs, f) + Sum(ys, f)
    decreases |ys|
  {
    if ys == [] {
      assert xs + ys == xs;
    } else {
      var init := ys[..|ys| - 1];
      assert (xs + ys)[..|xs + ys| - 1] == xs + init;
      SumAppend(xs, init, f);
    }
  }

  /** A filter and its complement partition the sum. */
  lemma {:induction false} SumFilterSplit<T>(xs: seq<T>, p: T -> bool, q: T -> bool, f: T -> real)
    requires forall x :: x in xs ==> q(x) == !p(x)
    ensures Sum(Filter(xs, p), f) + Sum(Filter(xs, q), f) == Sum(xs, f)
  {
    if xs != [] {
      var init, last := xs[..|xs| - 1], xs[|xs| - 1];
      assert xs == init + [last];
      SumFilterSplit(init, p, q, f);
      var fp, fq := Filter(init, p), Filter(init, q);
      if p(last) {
        assert (fp + [last])[..|fp|] == fp;
      } else {
        assert (fq + [last])[..|fq|] == fq;
      }
    }
  }

  /** The sum of a pointwise difference is the difference of the sums. */
  lemma {:induction false} SumDifference<T>(xs: seq<T>, f: T -> real, g: T -> real, h: T -> real)
    requires forall x :: x in xs ==> h(x) == f(x) - g(x)
    ensures Sum(xs, h) == Sum(xs, f) - Sum(xs, g)
  {
    if xs != [] {
      var init := xs[..|xs| - 1];
      assert xs == init + [xs[|xs| - 1]];
      SumDifference(init, f, g, h);
    }
  }

  /** A constant factor moves out of the sum. */
  lemma {:induction false} SumScale<T>(xs: seq<T>, f: T -> real, g: T -> real, k: real)
    requires forall x :: x in xs ==> g(x) == k * f(x)
    ensures Sum(xs, g) == k * Sum(xs, f)
  {
    if xs != [] {
      var init := xs[..|xs| - 1];
      assert xs == init + [xs[|xs| - 1]];
      SumScale(init, f, g, k);
    }
  }

  /** Sums of non-negative terms are non-negative. */
  lemma {:induction false} SumNonNegative<T>(xs: seq<T>, f: T -> real)
    requires forall x :: x in xs ==> f(x) >= 0.0
    ensures Sum(xs, f) >= 0.0
  {
    if xs != [] {
      var init := xs[..|xs| - 1];
      assert xs == init + [xs[|xs| - 1]];
      SumNonNegative(init, f);
    }
  }

  // ---------------------------------------------------------------- ReplaceById / RemoveById

  /** Replacing by id keeps the length and the order, touches only records with that id. */
  lemma ReplaceByIdAt<T>(xs: seq<T>, idOf: T -> string, r: T, i: int)
    requires 0 <= i < |xs|
    ensures |ReplaceById(xs, idOf, r)| == |xs|
    ensures idOf(xs[i]) == idOf(r) ==> ReplaceById(xs, idOf, r)[i] == r
    ensures idOf(xs[i]) != idOf(r) ==> ReplaceById(xs, idOf, r)[i] == xs[i]
  {
  }

  /** Replacing an id no record carries leaves the collection as it was. */
  lemma ReplaceByIdNoMatch<T>(xs: seq<T>, idOf: T -> string, r: T)
    requires forall x :: x in xs ==> idOf(x) != idOf(r)
    ensures ReplaceById(xs, idOf, r) == xs
  {
    var ys := ReplaceById(xs, idOf, r);
    forall i | 0 <= i < |xs| ensures ys[i] == xs[i] {
      assert xs[i] in xs;
    }
  }

  /** Replacing twice with the same record is replacing once. */
  lemma ReplaceByIdIdempotent<T>(xs: seq<T>, idOf: T -> string, r: T)
    ensures ReplaceById(ReplaceById(xs, idOf, r), idOf, r) == ReplaceById(xs, idOf, r)
  {
  }

  /** A property held by every record and by the replacement is held by every record afterwards. */
  lemma ReplaceByIdPreserves<T>(xs: seq<T>, idOf: T -> string, r: T, P: T -> bool)
    requires forall x :: x in xs ==> P(x)
    requires P(r)
    ensures forall y :: y in ReplaceById(xs, idOf, r) ==> P(y)
  {
    var ys := ReplaceById(xs, idOf, r);
    forall y | y in ys ensures P(y) {
      var i :| 0 <= i < |ys| && ys[i] == y;
      assert xs[i] in xs;
    }
  }

  /** Removing by id drops exactly the records with that id and keeps the rest in order. */
  lemma RemoveByIdExact<T>(xs: seq<T>, idOf: T -> string, id: string)
    ensures IsSubsequence(RemoveById(xs, idOf, id), xs)
    ensures forall x :: x in RemoveById(xs, idOf, id) <==> x in xs && idOf(x) != id
    ensures forall x :: multiset(RemoveById(xs, idOf, id))[x] == if idOf(x) == id then 0 else multiset(xs)[x]
  {
    FilterMembers(xs, IdIsNot(idOf, id));
    forall x ensures multiset(RemoveById(xs, idOf, id))[x] == if idOf(x) == id then 0 else multiset(xs)[x] {
      FilterMultiplicity(xs, IdIsNot(idOf, id), x);
    }
  }

  /** Removing the same id twice is removing it once. */
  lemma RemoveByIdIdempotent<T>(xs: seq<T>, idOf: T -> string, id: string)
    ensures RemoveById(RemoveById(xs, idOf, id), idOf, id) == RemoveById(xs, idOf, id)
  {
    FilterKeepsAll(RemoveById(xs, idOf, id), IdIsNot(idOf, id));
  }

  /** Removing an id no record carries leaves the collection as it was. */
  lemma RemoveByIdNoMatch<T>(xs: seq<T>, idOf: T -> string, id: string)
    requires forall x :: x in xs ==> idOf(x) != id
    ensures RemoveById(xs, idOf, id) == xs
  {
    FilterKeepsAll(xs, IdIsNot(idOf, id));
  }

  // ---------------------------------------------------------------- Distinct

  lemma {:induction false} FirstIndexOfPrefix<T>(xs: seq<T>, ys: seq<T>, x: T)
    requires x in xs
    ensures x in xs + ys && FirstIndex(xs + ys, x) == FirstIndex(xs, x)
  {
    if xs[0] != x {
      assert (xs + ys)[1..] == xs[1..] + ys;
      FirstIndexOfPrefix(xs[1..], ys, x);
    }
  }

  lemma {:induction false} FirstIndexOfNew<T>(xs: seq<T>, x: T)
    requires x !in xs
    ensures x in xs + [x] && FirstIndex(xs + [x], x) == |xs|
  {
    if xs != [] {
      assert (xs + [x])[1..] == xs[1..] + [x];
      FirstIndexOfNew(xs[1..], x);
    }
  }

  /** `Distinct` lists the elements in the order of their first occurrence. */
  lemma {:induction false} DistinctFirstOccurrenceOrder<T>(xs: seq<T>)
    ensures forall i, j :: 0 <= i < j < |Distinct(xs)| ==>
      FirstIndex(xs, Distinct(xs)[i]) < FirstIndex(xs, Distinct(xs)[j])
  {
    if xs != [] {
      var init, last := xs[..|xs| - 1], xs[|xs| - 1];
      assert xs == init + [last];
      DistinctFirstOccurrenceOrder(init);
      var seen := Distinct(init);
      forall x | x in seen ensures FirstIndex(xs, x) == FirstIndex(init, x) {
        FirstIndexOfPrefix(init, [last], x);
      }
      if last !in seen {
        FirstIndexOfNew(init, last);
        var r := seen + [last];
        forall i, j | 0 <= i < j < |r| ensures FirstIndex(xs, r[i]) < FirstIndex(xs, r[j]) {
          assert r[i] in seen;
          if j < |seen| {
            assert r[j] in seen;
          }
        }
      }
    }
  }
}
