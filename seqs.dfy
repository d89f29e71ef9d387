/**
 * Sequence operations behind the list views: `Array.prototype.filter`, and the copy-and-sort
 * `[...xs].sort((a, b) => key(b) - key(a))` that shows entries newest first.
 */
module Seqs {
  import opened Wrappers

  /** `a` is `b` with some elements left out, the rest in their order. */
  predicate IsSubsequence<T(==)>(a: seq<T>, b: seq<T>)
    decreases |b|
  {
    |a| == 0 || (|b| > 0 && ((a[0] == b[0] && IsSubsequence(a[1..], b[1..])) || IsSubsequence(a, b[1..])))
  }

  /** `xs.filter(p)`: the elements satisfying `p`, as a subsequence of `xs`. */
  function Filter<T(==)>(xs: seq<T>, p: T -> bool): (r: seq<T>)
    ensures |r| <= |xs|
    ensures forall i :: 0 <= i < |r| ==> r[i] in xs && p(r[i])
    ensures forall i :: 0 <= i < |xs| && p(xs[i]) ==> xs[i] in r
    ensures IsSubsequence(r, xs)
  {
    if xs == [] then []
    else if p(xs[0]) then [xs[0]] + Filter(xs[1..], p)
    else Filter(xs[1..], p)
  }

  /** Every sequence is a subsequence of itself. */
  lemma {:induction false} SubsequenceOfItself<T>(xs: seq<T>)
    ensures IsSubsequence(xs, xs)
  {
    if xs != [] {
      SubsequenceOfItself(xs[1..]);
    }
  }

  /** Filtering a concatenation filters each part. */
  lemma {:induction false} FilterAppend<T>(a: seq<T>, b: seq<T>, p: T -> bool)
    ensures Filter(a + b, p) == Filter(a, p) + Filter(b, p)
  {
    if a != [] {
      assert (a + b)[1..] == a[1..] + b;
      FilterAppend(a[1..], b, p);
    } else {
      assert a + b == b;
    }
  }

  /** A filter whose test every element passes keeps the whole sequence. */
  lemma {:induction false} FilterKeepsAll<T>(xs: seq<T>, p: T -> bool)
    requires forall x :: x in xs ==> p(x)
    ensures Filter(xs, p) == xs
  {
    if xs != [] {
      FilterKeepsAll(xs[1..], p);
    }
  }

  /** Two filters in a row are one filter whose test is both tests. */
  lemma {:induction false} FilterTwice<T>(xs: seq<T>, p: T -> bool, q: T -> bool, both: T -> bool)
    requires forall x :: both(x) == (p(x) && q(x))
    ensures Filter(Filter(xs, p), q) == Filter(xs, both)
  {
    if xs != [] {
      FilterTwice(xs[1..], p, q, both);
      if p(xs[0]) {
        assert ([xs[0]] + Filter(xs[1..], p))[1..] == Filter(xs[1..], p);
      }
    }
  }

  /** `xs.findIndex(p)`: the first position whose element passes `p`, or `None` (`-1`). */
  function FirstIndex<T>(xs: seq<T>, p: T -> bool): (k: Option<nat>)
    ensures k.None? <==> forall i :: 0 <= i < |xs| ==> !p(xs[i])
    ensures k.Some? ==> k.value < |xs| && p(xs[k.value]) && forall i :: 0 <= i < k.value ==> !p(xs[i])
  {
    if xs == [] then None
    else if p(xs[0]) then Some(0)
    else match FirstIndex(xs[1..], p)
      case None => None
      case Some(k) => Some(k + 1)
  }

  /** The elements after the first one that passes `p`; all of `xs` when none does. */
  function AfterFirst<T>(xs: seq<T>, p: T -> bool): (rest: seq<T>)
    ensures FirstIndex(xs, p).None? ==> rest == xs
    ensures FirstIndex(xs, p).Some? ==> rest == xs[FirstIndex(xs, p).value + 1..]
  {
    var k := FirstIndex(xs, p);
    if k.None? then xs else xs[k.value + 1..]
  }

  /**
   * `xs` cut at the first element passing `p`: what comes before and after it, that element
   * itself left out; without one, nothing before and everything after.
   */
  function AroundFirst<T>(xs: seq<T>, p: T -> bool): (parts: (seq<T>, seq<T>))
    ensures FirstIndex(xs, p).None? ==> parts == ([], xs)
    ensures FirstIndex(xs, p).Some? ==>
      var h := FirstIndex(xs, p).value;
      parts == (xs[..h], xs[h + 1..]) && parts.0 + [xs[h]] + parts.1 == xs
  {
    var k := FirstIndex(xs, p);
    if k.None? then ([], xs)
    else
      assert xs[..k.value] + [xs[k.value]] + xs[k.value + 1..] == xs;
      (xs[..k.value], xs[k.value + 1..])
  }

  /** A marker preceded only by elements that are not markers is the first one. */
  lemma MarkerIsFirst<T>(before: seq<T>, marker: T, after: seq<T>, p: T -> bool)
    requires p(marker)
    requires forall x :: x in before ==> !p(x)
    ensures FirstIndex(before + [marker] + after, p) == Some(|before|)
    ensures AfterFirst(before + [marker] + after, p) == after
  {
    var xs := before + [marker] + after;
    assert xs[|before|] == marker;
    forall i | 0 <= i < |before| ensures !p(xs[i]) {
      assert xs[i] == before[i];
    }
    assert xs[|before| + 1..] == after;
  }

  /** Filtering around an element the filter keeps. */
  lemma FilterAround<T>(before: seq<T>, x: T, after: seq<T>, p: T -> bool)
    requires p(x)
    ensures Filter(before + [x] + after, p) == Filter(before, p) + [x] + Filter(after, p)
  {
    FilterAppend(before + [x], after, p);
    FilterAppend(before, [x], p);
    FilterSingle(x, p);
  }

  lemma FilterSingle<T>(x: T, p: T -> bool)
    requires p(x)
    ensures Filter([x], p) == [x]
  {
    assert [x][1..] == [];
  }

  /** `xs.map(f)`: `f` applied to every element, in order. */
  function Map<T, U>(xs: seq<T>, f: T -> U): (r: seq<U>)
    ensures |r| == |xs|
    ensures forall i :: 0 <= i < |xs| ==> r[i] == f(xs[i])
  {
    if xs == [] then []
    else
      var rest := Map(xs[1..], f);
      assert forall i :: 1 <= i < |xs| ==> xs[1..][i - 1] == xs[i];
      [f(xs[0])] + rest
  }

  /** `xs.map(f).filter(v => v !== null)`: the present results, in the order of `xs`. */
  function FilterMap<T, U>(xs: seq<T>, f: T -> Option<U>): (r: seq<U>)
    ensures |r| <= |xs|
    ensures forall y :: y in r ==> exists x :: x in xs && f(x) == Some(y)
    ensures forall i :: 0 <= i < |xs| && f(xs[i]).Some? ==> f(xs[i]).value in r
  {
    if xs == [] then []
    else
      var rest := FilterMap(xs[1..], f);
      assert forall y :: y in rest ==> exists x :: x in xs && f(x) == Some(y) by {
        forall y | y in rest ensures exists x :: x in xs && f(x) == Some(y) {
          var x :| x in xs[1..] && f(x) == Some(y);
          assert x in xs;
        }
      }
      assert forall i :: 1 <= i < |xs| && f(xs[i]).Some? ==> f(xs[i]).value in rest by {
        forall i | 1 <= i < |xs| && f(xs[i]).Some? ensures f(xs[i]).value in rest {
          assert xs[1..][i - 1] == xs[i];
        }
      }
      if f(xs[0]).Some? then [f(xs[0]).value] + rest else rest
  }

  /** Mapping and dropping works element by element, so results keep the order of their inputs. */
  lemma {:induction false} FilterMapAppend<T, U>(a: seq<T>, b: seq<T>, f: T -> Option<U>)
    ensures FilterMap(a + b, f) == FilterMap(a, f) + FilterMap(b, f)
  {
    if a != [] {
      assert (a + b)[1..] == a[1..] + b;
      FilterMapAppend(a[1..], b, f);
    } else {
      assert a + b == b;
    }
  }

  /** Every pair of elements, earlier before later, is related by `before`. */
  ghost predicate OrderedBy<T>(xs: seq<T>, before: (T, T) -> bool)
  {
    forall i, j :: 0 <= i < j < |xs| ==> before(xs[i], xs[j])
  }

  /** Filtering keeps any order the sequence was in. */
  lemma {:induction false} FilterKeepsOrder<T>(xs: seq<T>, p: T -> bool, before: (T, T) -> bool)
    requires OrderedBy(xs, before)
    ensures OrderedBy(Filter(xs, p), before)
  {
    if xs != [] {
      var rest := xs[1..];
      assert OrderedBy(rest, before) by {
        forall i, j | 0 <= i < j < |rest| ensures before(rest[i], rest[j]) {
          assert rest[i] == xs[i + 1] && rest[j] == xs[j + 1];
        }
      }
      FilterKeepsOrder(rest, p, before);
      if p(xs[0]) {
        var r := Filter(xs, p);
        var fr := Filter(rest, p);
        assert r == [xs[0]] + fr;
        forall i, j | 0 <= i < j < |r| ensures before(r[i], r[j]) {
          if i == 0 {
            assert r[j] == fr[j - 1];
            assert fr[j - 1] in rest;
            var k :| 0 <= k < |rest| && rest[k] == fr[j - 1];
            assert xs[k + 1] == rest[k];
          } else {
            assert r[i] == fr[i - 1] && r[j] == fr[j - 1];
          }
        }
      }
    }
  }

  /** Newest first: timestamps never increase along the sequence. */
  ghost predicate NewestFirst<T>(xs: seq<T>, key: T -> int)
  {
    forall i, j :: 0 <= i < j < |xs| ==> key(xs[i]) >= key(xs[j])
  }

  /**
   * Puts `x` before the first element that is not newer than it, so that among equal
   * timestamps the element inserted later stays first (the sort is stable).
   */
  function InsertNewest<T(==)>(x: T, xs: seq<T>, key: T -> int): (r: seq<T>)
    ensures multiset(r) == multiset(xs) + multiset{x}
    ensures |r| == |xs| + 1
    ensures NewestFirst(xs, key) ==> NewestFirst(r, key)
  {
    if xs == [] then [x]
    else if key(xs[0]) <= key(x) then [x] + xs
    else
      var tail := InsertNewest(x, xs[1..], key);
      InsertNewestSorted(x, xs, key, tail);
      assert xs == [xs[0]] + xs[1..];
      [xs[0]] + tail
  }

  lemma {:induction false} InsertNewestSorted<T>(x: T, xs: seq<T>, key: T -> int, tail: seq<T>)
    requires xs != [] && key(xs[0]) > key(x)
    requires multiset(tail) == multiset(xs[1..]) + multiset{x}
    requires NewestFirst(xs[1..], key) ==> NewestFirst(tail, key)
    ensures NewestFirst(xs, key) ==> NewestFirst([xs[0]] + tail, key)
  {
    if NewestFirst(xs, key) {
      var r := [xs[0]] + tail;
      assert NewestFirst(xs[1..], key);
      forall i, j | 0 <= i < j < |r| ensures key(r[i]) >= key(r[j]) {
        if i == 0 {
          var y := tail[j - 1];
          assert y in multiset(tail);
          if y == x {
          } else {
            assert y in multiset(xs[1..]);
            var k :| 0 <= k < |xs[1..]| && xs[1..][k] == y;
            assert xs[k + 1] == y;
          }
        }
      }
    }
  }

  /** `[...xs].sort((a, b) => key(b) - key(a))`: newest first, a permutation of `xs`. */
  function SortNewestFirst<T(==)>(xs: seq<T>, key: T -> int): (r: seq<T>)
    ensures multiset(r) == multiset(xs)
    ensures |r| == |xs|
    ensures NewestFirst(r, key)
  {
    if xs == [] then []
    else
      assert xs == [xs[0]] + xs[1..];
      InsertNewest(xs[0], SortNewestFirst(xs[1..], key), key)
  }
}
