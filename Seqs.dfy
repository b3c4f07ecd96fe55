/** Generic operations on sequences used by every component: the
    `Array.prototype.filter` and `reduce`-to-a-sum idioms the handlers are
    written with, and the subsequence relation their results stand in. */
module Seqs {

  /** `a` can be obtained from `b` by deleting elements: the order is kept. */
  predicate IsSubseq<T(==)>(a: seq<T>, b: seq<T>)
    decreases |b|
  {
    if b == [] then a == []
    else (a != [] && a[0] == b[0] && IsSubseq(a[1..], b[1..])) || IsSubseq(a, b[1..])
  }

  lemma {:induction false} SubseqLength<T>(a: seq<T>, b: seq<T>)
    requires IsSubseq(a, b)
    ensures |a| <= |b|
    decreases |b|
  {
    if b != [] {
      if a != [] && a[0] == b[0] && IsSubseq(a[1..], b[1..]) {
        SubseqLength(a[1..], b[1..]);
      } else {
        SubseqLength(a, b[1..]);
      }
    }
  }

  lemma {:induction false} SubseqRefl<T>(s: seq<T>)
    ensures IsSubseq(s, s)
    decreases |s|
  {
    if s != [] {
      SubseqRefl(s[1..]);
    }
  }

  /** `filter(p)`: the elements of `s` satisfying `p`, in their order. */
  function Filter<T(==,!new)>(s: seq<T>, p: T -> bool): (r: seq<T>)
    ensures |r| <= |s|
    ensures IsSubseq(r, s)
    ensures forall x :: x in r <==> x in s && p(x)
    ensures (forall i :: 0 <= i < |s| ==> p(s[i])) ==> r == s
    ensures (forall i :: 0 <= i < |s| ==> !p(s[i])) ==> r == []
    decreases |s|
  {
    if s == [] then []
    else
      var rest := Filter(s[1..], p);
      assert forall i :: 0 <= i < |s[1..]| ==> s[1..][i] == s[i + 1];
      if p(s[0]) then
        assert ([s[0]] + rest)[1..] == rest;
        [s[0]] + rest
      else rest
  }

  /** Counted with multiplicity, `filter` keeps every copy of a passing element and none of a failing one. */
  lemma {:induction false} FilterMultiset<T(!new)>(s: seq<T>, p: T -> bool)
    ensures forall x :: multiset(Filter(s, p))[x] == if p(x) then multiset(s)[x] else 0
    decreases |s|
  {
    if s != [] {
      var t := s[1..];
      assert s == [s[0]] + t;
      FilterMultiset(t, p);
      FilterCons(s[0], t, p);
    }
  }

  lemma {:induction false} FilterAppend<T(!new)>(a: seq<T>, b: seq<T>, p: T -> bool)
    ensures Filter(a + b, p) == Filter(a, p) + Filter(b, p)
    decreases |a|
  {
    if a == [] {
      assert a + b == b;
    } else {
      assert (a + b)[1..] == a[1..] + b;
      FilterAppend(a[1..], b, p);
    }
  }

  /** Filters by two predicates that agree everywhere are equal. */
  lemma {:induction false} FilterExt<T(!new)>(s: seq<T>, p: T -> bool, q: T -> bool)
    requires forall x :: p(x) == q(x)
    ensures Filter(s, p) == Filter(s, q)
    decreases |s|
  {
    if s != [] {
      FilterExt(s[1..], p, q);
    }
  }

  /** Filtering by a stronger predicate keeps a subsequence of filtering by a weaker one. */
  lemma {:induction false} FilterStrengthen<T(!new)>(s: seq<T>, p: T -> bool, q: T -> bool)
    requires forall x :: p(x) ==> q(x)
    ensures IsSubseq(Filter(s, p), Filter(s, q))
    decreases |s|
  {
    if s != [] {
      FilterStrengthen(s[1..], p, q);
      var fp, fq := Filter(s[1..], p), Filter(s[1..], q);
      if p(s[0]) {
        assert ([s[0]] + fp)[1..] == fp && ([s[0]] + fq)[1..] == fq;
      } else if q(s[0]) {
        assert ([s[0]] + fq)[1..] == fq;
        SubseqSkipHead(fp, s[0], fq);
      }
    }
  }

  /** The predicate `x => p(x) && q(x)`. */
  function Both<T>(p: T -> bool, q: T -> bool): T -> bool
  {
    x => p(x) && q(x)
  }

  /** Filtering twice is filtering once by the conjunction. */
  lemma {:induction false} FilterBoth<T(!new)>(s: seq<T>, p: T -> bool, q: T -> bool)
    ensures Filter(Filter(s, p), q) == Filter(s, Both(p, q))
    decreases |s|
  {
    if s != [] {
      FilterBoth(s[1..], p, q);
      var fp := Filter(s[1..], p);
      if p(s[0]) {
        assert ([s[0]] + fp)[1..] == fp;
      }
    }
  }

  /** A subsequence of a tail is a subsequence of the whole. */
  lemma SubseqSkipHead<T>(a: seq<T>, x: T, b: seq<T>)
    requires IsSubseq(a, b)
    ensures IsSubseq(a, [x] + b)
  {
    assert ([x] + b)[1..] == b;
  }

  /** `reduce((acc, curr) => acc + v(curr), 0)`. */
  function Sum<T>(s: seq<T>, v: T -> int): int
    decreases |s|
  {
    if s == [] then 0 else v(s[0]) + Sum(s[1..], v)
  }

  lemma {:induction false} SumAppend<T>(a: seq<T>, b: seq<T>, v: T -> int)
    ensures Sum(a + b, v) == Sum(a, v) + Sum(b, v)
    decreases |a|
  {
    if a == [] {
      assert a + b == b;
    } else {
      assert (a + b)[1..] == a[1..] + b;
      SumAppend(a[1..], b, v);
    }
  }

  /** Splitting a sum along a predicate and its complement loses nothing. */
  lemma {:induction false} SumSplit<T(!new)>(s: seq<T>, p: T -> bool, q: T -> bool, v: T -> int)
    requires forall x :: q(x) == !p(x)
    ensures Sum(Filter(s, p), v) + Sum(Filter(s, q), v) == Sum(s, v)
    decreases |s|
  {
    if s != [] {
      SumSplit(s[1..], p, q, v);
      var fp, fq := Filter(s[1..], p), Filter(s[1..], q);
      if p(s[0]) {
        assert Sum([s[0]] + fp, v) == v(s[0]) + Sum(fp, v) by {
          assert ([s[0]] + fp)[1..] == fp;
        }
      } else {
        assert Sum([s[0]] + fq, v) == v(s[0]) + Sum(fq, v) by {
          assert ([s[0]] + fq)[1..] == fq;
        }
      }
    }
  }

  /** A filter that keeps as many elements as there are keeps every element. */
  lemma {:induction false} CountFull<T(!new)>(s: seq<T>, p: T -> bool)
    ensures |Filter(s, p)| == |s| ==> forall i :: 0 <= i < |s| ==> p(s[i])
    decreases |s|
  {
    if s != [] {
      var t := s[1..];
      assert s == [s[0]] + t;
      FilterCons(s[0], t, p);
      if p(s[0]) {
        CountFull(t, p);
        assert forall i :: 1 <= i < |s| ==> s[i] == t[i - 1];
      }
    }
  }

  /** A filter keeps everything exactly when everything passes, and nothing exactly when nothing does. */
  lemma CountAll<T(!new)>(s: seq<T>, p: T -> bool)
    ensures |Filter(s, p)| == |s| <==> forall i :: 0 <= i < |s| ==> p(s[i])
    ensures |Filter(s, p)| == 0 <==> forall i :: 0 <= i < |s| ==> !p(s[i])
  {
    CountFull(s, p);
  }

  /** The positions of `s` whose element passes `p`. */
  function PassingIndices<T>(s: seq<T>, p: T -> bool): set<int>
  {
    set i | 0 <= i < |s| && p(s[i])
  }

  /** Appending one element adds its position exactly when it passes. */
  lemma PassingIndicesSnoc<T>(t: seq<T>, x: T, p: T -> bool)
    ensures |PassingIndices(t + [x], p)| == |PassingIndices(t, p)| + (if p(x) then 1 else 0)
  {
    var a, b := PassingIndices(t, p), PassingIndices(t + [x], p);
    assert forall i :: 0 <= i < |t| ==> (t + [x])[i] == t[i];
    if p(x) {
      assert b == a + {|t|};
    } else {
      assert b == a;
    }
  }

  /** A filter count is the number of positions whose element passes. */
  lemma {:induction false} CountIndices<T(!new)>(s: seq<T>, p: T -> bool)
    ensures |Filter(s, p)| == |PassingIndices(s, p)|
    decreases |s|
  {
    if s == [] {
      assert PassingIndices(s, p) == {};
    } else {
      var t, x := s[..|s| - 1], s[|s| - 1];
      assert s == t + [x];
      CountIndices(t, p);
      FilterAppend(t, [x], p);
      CountCons(x, [], p);
      assert [x] + [] == [x];
      PassingIndicesSnoc(t, x, p);
    }
  }

  /** Filters by a predicate and by its complement share out the whole list. */
  lemma {:induction false} CountComplement<T(!new)>(s: seq<T>, p: T -> bool, q: T -> bool)
    requires forall x :: q(x) == !p(x)
    ensures |Filter(s, p)| + |Filter(s, q)| == |s|
    decreases |s|
  {
    if s != [] {
      var t := s[1..];
      assert s == [s[0]] + t;
      CountComplement(t, p, q);
      CountCons(s[0], t, p);
      CountCons(s[0], t, q);
    }
  }

  /** Filters by two predicates no element satisfies together pick at most |s| elements between them. */
  lemma {:induction false} FilterDisjoint<T(!new)>(s: seq<T>, p: T -> bool, q: T -> bool)
    requires forall x :: !(p(x) && q(x))
    ensures |Filter(s, p)| + |Filter(s, q)| <= |s|
    decreases |s|
  {
    if s != [] {
      FilterDisjoint(s[1..], p, q);
      FilterAppend([s[0]], s[1..], p);
      FilterAppend([s[0]], s[1..], q);
      assert [s[0]] + s[1..] == s;
      assert [s[0]][1..] == [];
    }
  }

  /** One step of `filter`: the head is kept or dropped, the tail filtered. */
  lemma FilterCons<T(!new)>(x: T, s: seq<T>, p: T -> bool)
    ensures Filter([x] + s, p) == if p(x) then [x] + Filter(s, p) else Filter(s, p)
  {
    assert ([x] + s)[1..] == s;
  }

  /** One step of a filter count: the head adds one exactly when it passes. */
  lemma CountCons<T(!new)>(x: T, s: seq<T>, p: T -> bool)
    ensures |Filter([x] + s, p)| == (if p(x) then 1 else 0) + |Filter(s, p)|
  {
    FilterCons(x, s, p);
  }

  /** The count of a filter over a two-element list. */
  lemma CountTwo<T(!new)>(a: T, b: T, p: T -> bool)
    ensures |Filter([a, b], p)| == (if p(a) then 1 else 0) + (if p(b) then 1 else 0)
  {
    assert [a, b] == [a] + ([b] + []);
    CountCons(b, [], p);
    CountCons(a, [b], p);
  }

  /** The count of a filter over a three-element list. */
  lemma CountThree<T(!new)>(a: T, b: T, c: T, p: T -> bool)
    ensures |Filter([a, b, c], p)| == (if p(a) then 1 else 0) + (if p(b) then 1 else 0) + (if p(c) then 1 else 0)
  {
    assert [a, b, c] == [a] + [b, c];
    CountTwo(b, c, p);
    CountCons(a, [b, c], p);
  }
}
