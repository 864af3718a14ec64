/**
 * Sequence helpers shared by the model: an order-preserving filter, the
 * subsequence relation, pairwise properties, and a stable sort by a total
 * preorder (Python's `sorted` and pandas' multi-column `sort_values` are
 * stable, so equal keys keep input order).
 */
module Seqs {

  /** `[x for x in s if p(x)]`. */
  function Filter<T(!new)>(s: seq<T>, p: T -> bool): (r: seq<T>)
    ensures |r| <= |s|
    ensures forall x :: x in r <==> x in s && p(x)
  {
    if s == [] then []
    else (if p(s[0]) then [s[0]] else []) + Filter(s[1..], p)
  }

  /** Filtering one more element at the end. */
  lemma {:induction false} FilterSnoc<T(!new)>(s: seq<T>, x: T, p: T -> bool)
    ensures Filter(s + [x], p) == Filter(s, p) + (if p(x) then [x] else [])
    decreases |s|
  {
    if s == [] {
      assert s + [x] == [x] && [x][1..] == [];
    } else {
      assert (s + [x])[0] == s[0] && (s + [x])[1..] == s[1..] + [x];
      FilterSnoc(s[1..], x, p);
    }
  }

  /** Nothing survives a filter no element passes. */
  lemma FilterNone<T(!new)>(s: seq<T>, p: T -> bool)
    requires forall i :: 0 <= i < |s| ==> !p(s[i])
    ensures Filter(s, p) == []
  {
  }

  /** a is obtained from b by deleting elements, keeping order. */
  predicate Subseq<T(==)>(a: seq<T>, b: seq<T>)
    decreases |b|
  {
    a == [] || (b != [] && ((a[0] == b[0] && Subseq(a[1..], b[1..])) || Subseq(a, b[1..])))
  }

  lemma {:induction false} FilterSubseq<T(!new)>(s: seq<T>, p: T -> bool)
    ensures Subseq(Filter(s, p), s)
  {
    if s != [] {
      FilterSubseq(s[1..], p);
      if p(s[0]) {
        assert Filter(s, p) == [s[0]] + Filter(s[1..], p);
      } else {
        assert Filter(s, p) == Filter(s[1..], p);
        SubseqSkip(Filter(s[1..], p), s);
      }
    }
  }

  lemma SubseqSkip<T>(a: seq<T>, b: seq<T>)
    requires b != [] && Subseq(a, b[1..])
    ensures Subseq(a, b)
  {
  }

  lemma {:induction false} SubseqMembers<T>(a: seq<T>, b: seq<T>)
    requires Subseq(a, b)
    ensures forall x :: x in a ==> x in b
    decreases |b|
  {
    if a != [] {
      if a[0] == b[0] && Subseq(a[1..], b[1..]) {
        SubseqMembers(a[1..], b[1..]);
        forall x | x in a ensures x in b {
          if x != a[0] {
            assert x in a[1..];
          }
        }
      } else {
        SubseqMembers(a, b[1..]);
      }
    }
  }

  lemma {:induction false} SubseqRefl<T>(a: seq<T>)
    ensures Subseq(a, a)
  {
    if a != [] {
      SubseqRefl(a[1..]);
    }
  }

  lemma {:induction false} SubseqTrans<T>(a: seq<T>, b: seq<T>, c: seq<T>)
    requires Subseq(a, b) && Subseq(b, c)
    ensures Subseq(a, c)
    decreases |c|
  {
    if a != [] {
      assert b != [] && c != [];
      if b[0] == c[0] && Subseq(b[1..], c[1..]) {
        if a[0] == b[0] && Subseq(a[1..], b[1..]) {
          SubseqTrans(a[1..], b[1..], c[1..]);
        } else {
          SubseqTrans(a, b[1..], c[1..]);
        }
      } else {
        SubseqTrans(a, b, c[1..]);
      }
    }
  }

  lemma {:induction false} PrefixSubseq<T>(a: seq<T>, k: nat)
    requires k <= |a|
    ensures Subseq(a[..k], a)
    decreases |a|
  {
    if k > 0 {
      assert a[..k][1..] == a[1..][..k - 1];
      PrefixSubseq(a[1..], k - 1);
    }
  }

  /** `s[:n]` for n >= 0 (also `head(n)`). */
  function TakeSeq<T>(s: seq<T>, n: nat): (r: seq<T>)
    ensures |r| == (if n < |s| then n else |s|) && r == s[..|r|]
  {
    if n < |s| then s[..n] else s
  }

  /** rel holds of every pair taken in order; sortedness and distinctness are both of this form. */
  ghost predicate Pairwise<T>(s: seq<T>, rel: (T, T) -> bool)
  {
    forall i, j :: 0 <= i < j < |s| ==> rel(s[i], s[j])
  }

  lemma {:induction false} PairwiseSubseq<T>(a: seq<T>, b: seq<T>, rel: (T, T) -> bool)
    requires Subseq(a, b) && Pairwise(b, rel)
    ensures Pairwise(a, rel)
    decreases |b|
  {
    if a != [] {
      var tail := b[1..];
      assert Pairwise(tail, rel);
      if a[0] == b[0] && Subseq(a[1..], tail) {
        PairwiseSubseq(a[1..], tail, rel);
        SubseqMembers(a[1..], tail);
        forall i, j | 0 <= i < j < |a| ensures rel(a[i], a[j]) {
          if i == 0 {
            assert a[j] in a[1..];
            var k :| 0 <= k < |tail| && tail[k] == a[j];
            assert tail[k] == b[k + 1];
          } else {
            assert a[i] == a[1..][i - 1] && a[j] == a[1..][j - 1];
          }
        }
      } else {
        PairwiseSubseq(a, tail, rel);
      }
    }
  }

  ghost predicate Total<T(!new)>(le: (T, T) -> bool)
  {
    forall a, b :: le(a, b) || le(b, a)
  }

  ghost predicate Transitive<T(!new)>(le: (T, T) -> bool)
  {
    forall a, b, c :: le(a, b) && le(b, c) ==> le(a, c)
  }

  /** Puts x before the first element it is `le` to, so equal elements already placed stay ahead of it. */
  function Insert<T>(x: T, s: seq<T>, le: (T, T) -> bool): (r: seq<T>)
    ensures multiset(r) == multiset(s) + multiset{x}
    ensures |r| == |s| + 1
  {
    if s == [] then [x]
    else if le(x, s[0]) then [x] + s
    else
      assert s == [s[0]] + s[1..];
      [s[0]] + Insert(x, s[1..], le)
  }

  /** Stable insertion sort: a permutation of s. */
  function SortBy<T>(s: seq<T>, le: (T, T) -> bool): (r: seq<T>)
    ensures multiset(r) == multiset(s)
    ensures |r| == |s|
  {
    if s == [] then []
    else
      assert s == [s[0]] + s[1..];
      Insert(s[0], SortBy(s[1..], le), le)
  }

  lemma {:induction false} InsertSorted<T(!new)>(x: T, s: seq<T>, le: (T, T) -> bool)
    requires Total(le) && Transitive(le)
    requires Pairwise(s, le)
    ensures Pairwise(Insert(x, s, le), le)
  {
    if s != [] && !le(x, s[0]) {
      var t := s[1..];
      assert Pairwise(t, le);
      InsertSorted(x, t, le);
      var r := Insert(x, t, le);
      assert le(s[0], x);
      forall k | 0 <= k < |r| ensures le(s[0], r[k]) {
        assert r[k] in multiset(r);
        if r[k] != x {
          assert r[k] in multiset(t);
          var j :| 0 <= j < |t| && t[j] == r[k];
          assert t[j] == s[j + 1];
        }
      }
      var full := [s[0]] + r;
      forall i, j | 0 <= i < j < |full| ensures le(full[i], full[j]) {
        if i > 0 {
          assert full[i] == r[i - 1] && full[j] == r[j - 1];
        }
      }
    }
  }

  lemma {:induction false} SortBySorted<T(!new)>(s: seq<T>, le: (T, T) -> bool)
    requires Total(le) && Transitive(le)
    ensures Pairwise(SortBy(s, le), le)
  {
    if s != [] {
      SortBySorted(s[1..], le);
      InsertSorted(s[0], SortBy(s[1..], le), le);
    }
  }

  /** Elements that `le` ranks equal appear in increasing idx. */
  ghost predicate TiesOrdered<T>(s: seq<T>, le: (T, T) -> bool, idx: T -> int)
  {
    forall i, j :: 0 <= i < j < |s| && le(s[j], s[i]) ==> idx(s[i]) < idx(s[j])
  }

  /** Prepending an element ranked before all others by idx keeps ties ordered. */
  lemma ConsStable<T>(x: T, s: seq<T>, le: (T, T) -> bool, idx: T -> int)
    requires TiesOrdered(s, le, idx)
    requires forall k :: 0 <= k < |s| ==> idx(x) < idx(s[k])
    ensures TiesOrdered([x] + s, le, idx)
  {
    var r := [x] + s;
    forall i, j | 0 <= i < j < |r| && le(r[j], r[i]) ensures idx(r[i]) < idx(r[j]) {
      if i > 0 {
        assert r[i] == s[i - 1] && r[j] == s[j - 1];
      }
    }
  }

  /** Keeping s[0] in front of a tie-ordered insertion into the rest keeps ties ordered. */
  lemma BehindHeadStable<T(!new)>(x: T, s: seq<T>, le: (T, T) -> bool, idx: T -> int, r: seq<T>)
    requires s != [] && !le(x, s[0])
    requires TiesOrdered(s, le, idx) && TiesOrdered(r, le, idx)
    requires multiset(r) == multiset(s[1..]) + multiset{x}
    ensures TiesOrdered([s[0]] + r, le, idx)
  {
    var t := s[1..];
    var full := [s[0]] + r;
    forall i, j | 0 <= i < j < |full| && le(full[j], full[i]) ensures idx(full[i]) < idx(full[j]) {
      if i > 0 {
        assert full[i] == r[i - 1] && full[j] == r[j - 1];
      } else {
        assert full[j] in multiset(r);
        if full[j] != x {
          assert full[j] in multiset(t);
          var m :| 0 <= m < |t| && t[m] == full[j];
          assert t[m] == s[m + 1];
        }
      }
    }
  }

  lemma {:induction false} InsertStable<T(!new)>(x: T, s: seq<T>, le: (T, T) -> bool, idx: T -> int)
    requires Total(le) && Transitive(le)
    requires Pairwise(s, le) && TiesOrdered(s, le, idx)
    requires forall k :: 0 <= k < |s| ==> idx(x) < idx(s[k])
    ensures TiesOrdered(Insert(x, s, le), le, idx)
  {
    if s != [] {
      if le(x, s[0]) {
        ConsStable(x, s, le, idx);
      } else {
        var t := s[1..];
        assert Pairwise(t, le) && TiesOrdered(t, le, idx);
        assert forall k :: 0 <= k < |t| ==> idx(x) < idx(t[k]) by {
          forall k | 0 <= k < |t| ensures idx(x) < idx(t[k]) {
            assert t[k] == s[k + 1];
          }
        }
        InsertStable(x, t, le, idx);
        BehindHeadStable(x, s, le, idx, Insert(x, t, le));
      }
    }
  }

  /** The insertion sort is stable: elements it ranks equal keep their input order, given by idx. */
  lemma {:induction false} SortByStable<T(!new)>(s: seq<T>, le: (T, T) -> bool, idx: T -> int)
    requires Total(le) && Transitive(le)
    requires forall i, j :: 0 <= i < j < |s| ==> idx(s[i]) < idx(s[j])
    ensures TiesOrdered(SortBy(s, le), le, idx)
  {
    if s != [] {
      var t := s[1..];
      SortByStable(t, le, idx);
      SortBySorted(t, le);
      var st := SortBy(t, le);
      forall k | 0 <= k < |st| ensures idx(s[0]) < idx(st[k]) {
        assert st[k] in multiset(st);
        var m :| 0 <= m < |t| && t[m] == st[k];
        assert t[m] == s[m + 1];
      }
      InsertStable(s[0], st, le, idx);
    }
  }

  /** `s[:k]` for any int k: a negative k drops the last -k elements. */
  function PyTake<T>(s: seq<T>, k: int): (r: seq<T>)
    ensures |r| <= |s| && r == s[..|r|]
    ensures k >= 0 ==> |r| == (if k < |s| then k else |s|)
    ensures k < 0 ==> |r| == (if |s| + k < 0 then 0 else |s| + k)
  {
    if k >= 0 then TakeSeq(s, k) else if |s| + k < 0 then [] else s[..|s| + k]
  }

  /** `[f(x) for x in s]`. */
  function Map<T, U>(s: seq<T>, f: T -> U): (r: seq<U>)
    ensures |r| == |s| && forall i :: 0 <= i < |s| ==> r[i] == f(s[i])
  {
    seq(|s|, i requires 0 <= i < |s| => f(s[i]))
  }

  lemma MapCons<T, U>(s: seq<T>, f: T -> U)
    requires s != []
    ensures Map(s, f) == [f(s[0])] + Map(s[1..], f)
  {
  }

  lemma MapSnoc<T, U>(s: seq<T>, x: T, f: T -> U)
    ensures Map(s + [x], f) == Map(s, f) + [f(x)]
  {
    var l := Map(s + [x], f);
    var r := Map(s, f) + [f(x)];
    assert |l| == |r|;
    forall i | 0 <= i < |l|
      ensures l[i] == r[i]
    {
      if i < |s| {
        assert (s + [x])[i] == s[i];
      }
    }
  }

  /** The concatenation of the images of the elements, in order. */
  function FlatMap<T, U>(s: seq<T>, f: T -> seq<U>): seq<U>
  {
    if s == [] then [] else f(s[0]) + FlatMap(s[1..], f)
  }

  lemma {:induction false} FlatMapSnoc<T, U>(s: seq<T>, x: T, f: T -> seq<U>)
    ensures FlatMap(s + [x], f) == FlatMap(s, f) + f(x)
    decreases |s|
  {
    if s == [] {
      assert [x][1..] == [];
    } else {
      assert (s + [x])[0] == s[0] && (s + [x])[1..] == s[1..] + [x];
      FlatMapSnoc(s[1..], x, f);
    }
  }

  /** Every kept element has its image among the images of the kept elements. */
  lemma MapFilterImage<T(!new), U>(s: seq<T>, p: T -> bool, f: T -> U)
    ensures forall x :: x in s && p(x) ==> f(x) in Map(Filter(s, p), f)
  {
    var kept := Filter(s, p);
    forall x | x in s && p(x)
      ensures f(x) in Map(kept, f)
    {
      assert x in kept;
      var k :| 0 <= k < |kept| && kept[k] == x;
      assert Map(kept, f)[k] == f(x);
    }
  }

  lemma SplitLast<T>(s: seq<T>)
    requires s != []
    ensures s == s[..|s| - 1] + [s[|s| - 1]]
  {
  }

  /** Growing a prefix by one element adds that element's image at the end. */
  lemma MapPrefix<T, U>(s: seq<T>, i: nat, f: T -> U)
    requires i < |s|
    ensures Map(s[..i + 1], f) == Map(s[..i], f) + [f(s[i])]
  {
    assert s[..i + 1] == s[..i] + [s[i]];
    MapSnoc(s[..i], s[i], f);
  }

  /** Growing a prefix by one element adds that element's image at the end. */
  lemma FlatMapPrefix<T, U>(s: seq<T>, i: nat, f: T -> seq<U>, top: seq<U>)
    requires i < |s|
    ensures top + FlatMap(s[..i + 1], f) == (top + FlatMap(s[..i], f)) + f(s[i])
  {
    assert s[..i + 1] == s[..i] + [s[i]];
    FlatMapSnoc(s[..i], s[i], f);
  }

  lemma TakeAll<T>(s: seq<T>)
    ensures s[..|s|] == s
  {
  }

  /** The images of the kept elements share what f gives every kept element. */
  lemma MapFilterAll<T(!new), U>(s: seq<T>, p: T -> bool, f: T -> U, q: U -> bool)
    requires forall x :: p(x) ==> q(f(x))
    ensures forall y :: y in Map(Filter(s, p), f) ==> q(y)
  {
    var kept := Filter(s, p);
    forall y | y in Map(kept, f)
      ensures q(y)
    {
      var k :| 0 <= k < |kept| && Map(kept, f)[k] == y;
      assert kept[k] in kept;
    }
  }

  /** Inserting x adds f(x) to the image. */
  lemma {:induction false} InsertMap<T, U>(x: T, s: seq<T>, le: (T, T) -> bool, f: T -> U)
    ensures multiset(Map(Insert(x, s, le), f)) == multiset(Map(s, f)) + multiset{f(x)}
  {
    var r := Insert(x, s, le);
    if s == [] {
      assert Map(r, f) == [f(x)];
    } else if le(x, s[0]) {
      assert r[0] == x && r[1..] == s;
      MapCons(r, f);
    } else {
      var t := s[1..];
      InsertMap(x, t, le, f);
      assert r[0] == s[0] && r[1..] == Insert(x, t, le);
      MapCons(r, f);
      MapCons(s, f);
    }
  }

  /** Sorting permutes the image as well. */
  lemma {:induction false} SortByMap<T, U>(s: seq<T>, le: (T, T) -> bool, f: T -> U)
    ensures multiset(Map(SortBy(s, le), f)) == multiset(Map(s, f))
  {
    if s != [] {
      var t := s[1..];
      SortByMap(t, le, f);
      InsertMap(s[0], SortBy(t, le), le, f);
      assert Map(s, f) == [f(s[0])] + Map(t, f);
    }
  }

  /** Filtering by a stronger predicate keeps a subsequence of what a weaker one keeps. */
  lemma {:induction false} FilterImplies<T(!new)>(s: seq<T>, p: T -> bool, q: T -> bool)
    requires forall x :: p(x) ==> q(x)
    ensures Subseq(Filter(s, p), Filter(s, q))
  {
    if s != [] {
      var a := Filter(s[1..], p);
      var b := Filter(s[1..], q);
      FilterImplies(s[1..], p, q);
      if p(s[0]) {
        assert Filter(s, p) == [s[0]] + a && Filter(s, q) == [s[0]] + b;
        assert ([s[0]] + a)[1..] == a && ([s[0]] + b)[1..] == b;
      } else if q(s[0]) {
        assert Filter(s, p) == a && Filter(s, q) == [s[0]] + b;
        assert ([s[0]] + b)[1..] == b;
        SubseqSkip(a, [s[0]] + b);
      } else {
        assert Filter(s, p) == a && Filter(s, q) == b;
      }
    }
  }
}
