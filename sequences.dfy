/**
 * List idioms the source uses: comprehensions with a filter
 * (`[g(x) for x in xs if p(x)]`), `ORDER BY`, and the lexicographic order
 * of strings.
 */
module Sequences {
  import opened Wrappers

  /**
   * `[y for x in s if (y := f(x)) is not None]`: the survivors of `s`, mapped,
   * in their original order.
   */
  function FilterMap<A, B>(s: seq<A>, f: A -> Option<B>): (r: seq<B>)
    ensures |r| <= |s|
    ensures |r| == |s| <==> forall i :: 0 <= i < |s| ==> f(s[i]).Some?
  {
    if s == [] then []
    else
      var p := FilterMap(s[..|s| - 1], f);
      assert forall i :: 0 <= i < |s| - 1 ==> s[..|s| - 1][i] == s[i];
      match f(s[|s| - 1])
      case Some(y) => p + [y]
      case None => p
  }

  /** One more element at the end of the input: the step of a filtering loop. */
  lemma FilterMapSnoc<A, B>(s: seq<A>, x: A, f: A -> Option<B>)
    ensures FilterMap(s + [x], f) == FilterMap(s, f) + (if f(x).Some? then [f(x).value] else [])
  {
    assert (s + [x])[..|s|] == s;
  }

  /**
   * Every survivor comes from one input position, positions strictly increase
   * (order is kept), and every position not listed was dropped.
   */
  lemma {:induction false} FilterMapOrigins<A, B>(s: seq<A>, f: A -> Option<B>) returns (idx: seq<nat>)
    ensures |idx| == |FilterMap(s, f)|
    ensures forall k :: 0 <= k < |idx| ==> idx[k] < |s| && f(s[idx[k]]) == Some(FilterMap(s, f)[k])
    ensures forall k, l :: 0 <= k < l < |idx| ==> idx[k] < idx[l]
    ensures forall i :: 0 <= i < |s| && i !in idx ==> f(s[i]).None?
  {
    if s == [] {
      idx := [];
    } else {
      var n := |s| - 1;
      var front := s[..n];
      assert s == front + [s[n]];
      var p := FilterMapOrigins(front, f);
      FilterMapSnoc(front, s[n], f);
      if f(s[n]).Some? {
        idx := p + [n];
      } else {
        idx := p;
      }
    }
  }

  /** `[f(x) for x in s]` */
  function Map<A, B>(s: seq<A>, f: A -> B): (r: seq<B>)
    ensures |r| == |s| && forall k :: 0 <= k < |s| ==> r[k] == f(s[k])
  {
    if s == [] then []
    else
      var front := s[..|s| - 1];
      assert forall k :: 0 <= k < |front| ==> front[k] == s[k];
      Map(front, f) + [f(s[|s| - 1])]
  }

  function Min(a: int, b: int): int {
    if a <= b then a else b
  }

  /** `[f(k, x, y) for k, (x, y) in enumerate(zip(xs, ys))]`: stops at the shorter list. */
  function ZipWith<A, B, C>(xs: seq<A>, ys: seq<B>, f: (nat, A, B) -> C): (r: seq<C>)
    ensures |r| == Min(|xs|, |ys|) && forall k :: 0 <= k < |r| ==> r[k] == f(k, xs[k], ys[k])
  {
    seq(Min(|xs|, |ys|), k requires 0 <= k < Min(|xs|, |ys|) => f(k, xs[k], ys[k]))
  }

  /** One more pair at the end of both lists adds one more element. */
  lemma ZipWithSnoc<A, B, C>(xs: seq<A>, ys: seq<B>, f: (nat, A, B) -> C, k: nat)
    requires k < |xs| && k < |ys|
    ensures ZipWith(xs[..k + 1], ys[..k + 1], f) == ZipWith(xs[..k], ys[..k], f) + [f(k, xs[k], ys[k])]
  {
    var longer := ZipWith(xs[..k + 1], ys[..k + 1], f);
    var shorter := ZipWith(xs[..k], ys[..k], f);
    assert forall j :: 0 <= j < k ==> longer[j] == shorter[j];
  }

  /** Trimming both lists to the shorter length changes nothing. */
  lemma ZipWithTruncate<A, B, C>(xs: seq<A>, ys: seq<B>, f: (nat, A, B) -> C)
    ensures var n := Min(|xs|, |ys|); ZipWith(xs[..n], ys[..n], f) == ZipWith(xs, ys, f)
  {
  }

  /** Mapping one more element appends its image. */
  lemma MapSnoc<A, B>(s: seq<A>, x: A, f: A -> B)
    ensures Map(s + [x], f) == Map(s, f) + [f(x)]
  {
    assert (s + [x])[..|s|] == s;
  }

  /** `[x for x in s if p(x)]` */
  function Filter<A(!new)>(s: seq<A>, p: A -> bool): (r: seq<A>)
    ensures |r| <= |s|
    ensures forall x :: x in r <==> x in s && p(x)
    ensures forall x :: multiset(r)[x] == if p(x) then multiset(s)[x] else 0
  {
    if s == [] then []
    else
      var front := s[..|s| - 1];
      assert s == front + [s[|s| - 1]];
      Filter(front, p) + (if p(s[|s| - 1]) then [s[|s| - 1]] else [])
  }

  /** One element more: it is kept iff `p` holds of it. */
  lemma FilterSnoc<A(!new)>(s: seq<A>, x: A, p: A -> bool)
    ensures Filter(s + [x], p) == Filter(s, p) + (if p(x) then [x] else [])
  {
    assert (s + [x])[..|s|] == s;
  }

  /** Filtering by `p` and then by `q` is filtering once by their conjunction `pq`. */
  lemma {:induction false} FilterTwice<A(!new)>(s: seq<A>, p: A -> bool, q: A -> bool, pq: A -> bool)
    requires forall x :: pq(x) == (p(x) && q(x))
    ensures Filter(Filter(s, p), q) == Filter(s, pq)
    decreases |s|
  {
    if s != [] {
      var front := s[..|s| - 1];
      var x := s[|s| - 1];
      assert s == front + [x];
      FilterSnoc(front, x, p);
      FilterSnoc(front, x, pq);
      if p(x) {
        calc {
          Filter(Filter(s, p), q);
          Filter(Filter(front, p) + [x], q);
          { FilterSnoc(Filter(front, p), x, q); }
          Filter(Filter(front, p), q) + (if q(x) then [x] else []);
          { FilterTwice(front, p, q, pq); }
          Filter(s, pq);
        }
      } else {
        var fp := Filter(front, p);
        assert Filter(s, p) == fp + [];
        assert fp + [] == fp;
        calc {
          Filter(Filter(s, p), q);
          Filter(fp, q);
          { FilterTwice(front, p, q, pq); }
          Filter(s, pq);
        }
      }
    }
  }

  /** `sum(s)` */
  function Sum(s: seq<nat>): (t: nat)
    ensures (forall i :: 0 <= i < |s| ==> s[i] == 0) ==> t == 0
  {
    if s == [] then 0 else Sum(s[..|s| - 1]) + s[|s| - 1]
  }

  lemma SumSnoc(s: seq<nat>, x: nat)
    ensures Sum(s + [x]) == Sum(s) + x
  {
    assert (s + [x])[..|s|] == s;
  }

  /** `le` orders every pair and is transitive: what `sorted`/`ORDER BY` needs. */
  ghost predicate TotalPreorder<A(!new)>(le: (A, A) -> bool) {
    (forall a, b :: le(a, b) || le(b, a))
    && (forall a, b, c :: le(a, b) && le(b, c) ==> le(a, c))
  }

  predicate SortedBy<A>(s: seq<A>, le: (A, A) -> bool) {
    forall i, j :: 0 <= i < j < |s| ==> le(s[i], s[j])
  }

  /** `x` placed before the first element it does not follow. */
  function Insert<A>(x: A, s: seq<A>, le: (A, A) -> bool): (r: seq<A>)
    ensures multiset(r) == multiset(s) + multiset{x}
  {
    if s == [] then [x]
    else if le(x, s[0]) then [x] + s
    else
      assert s == [s[0]] + s[1..];
      [s[0]] + Insert(x, s[1..], le)
  }

  /** Inserting into a sorted list keeps it sorted. */
  lemma {:induction false} InsertSorted<A(!new)>(x: A, s: seq<A>, le: (A, A) -> bool)
    requires TotalPreorder(le) && SortedBy(s, le)
    ensures SortedBy(Insert(x, s, le), le)
  {
    if s != [] && !le(x, s[0]) {
      var t := Insert(x, s[1..], le);
      InsertSorted(x, s[1..], le);
      HeadPrecedesInsert(x, s, le);
      assert Insert(x, s, le) == [s[0]] + t;
    }
  }

  /** The head of a sorted list precedes everything of its tail once a later element is inserted there. */
  lemma HeadPrecedesInsert<A(!new)>(x: A, s: seq<A>, le: (A, A) -> bool)
    requires TotalPreorder(le) && SortedBy(s, le) && s != [] && !le(x, s[0])
    ensures forall y :: y in Insert(x, s[1..], le) ==> le(s[0], y)
  {
    forall y | y in Insert(x, s[1..], le)
      ensures le(s[0], y)
    {
      assert y in multiset(s[1..]) + multiset{x};
      if y != x {
        assert y in s[1..];
        var k :| 0 <= k < |s[1..]| && s[1..][k] == y;
        assert s[k + 1] == y;
      }
    }
  }

  /** A stable insertion sort: the ordering an `ORDER BY` clause produces. */
  function SortBy<A(!new)>(s: seq<A>, le: (A, A) -> bool): (r: seq<A>)
    requires TotalPreorder(le)
    ensures multiset(r) == multiset(s)
    ensures SortedBy(r, le)
  {
    if s == [] then []
    else
      assert s == [s[0]] + s[1..];
      var t := SortBy(s[1..], le);
      InsertSorted(s[0], t, le);
      Insert(s[0], t, le)
  }

  /** String comparison by code point, as Python's `<=` and SQLite's default collation do it. */
  predicate LexLe(a: string, b: string) {
    a == [] || (b != [] && (a[0] < b[0] || (a[0] == b[0] && LexLe(a[1..], b[1..]))))
  }

  lemma {:induction false} LexLeTotal(a: string, b: string)
    ensures LexLe(a, b) || LexLe(b, a)
  {
    if a != [] && b != [] && a[0] == b[0] {
      LexLeTotal(a[1..], b[1..]);
    }
  }

  lemma {:induction false} LexLeTransitive(a: string, b: string, c: string)
    requires LexLe(a, b) && LexLe(b, c)
    ensures LexLe(a, c)
  {
    if a != [] && a[0] == b[0] && b[0] == c[0] {
      LexLeTransitive(a[1..], b[1..], c[1..]);
    }
  }

  lemma {:induction false} LexLeAntisymmetric(a: string, b: string)
    requires LexLe(a, b) && LexLe(b, a)
    ensures a == b
  {
    if a != [] {
      LexLeAntisymmetric(a[1..], b[1..]);
      assert a == [a[0]] + a[1..] && b == [b[0]] + b[1..];
    }
  }

  /** A prefix no longer than `a` is a prefix of `a`. */
  /** A prefix holds each element at most as often as the whole sequence. */
  lemma PrefixSubMultiset<T>(s: seq<T>, n: nat)
    requires n <= |s|
    ensures multiset(s[..n]) <= multiset(s)
  {
    assert s == s[..n] + s[n..];
  }

  lemma PrefixOfAppend<T>(a: seq<T>, b: seq<T>, n: nat)
    requires n <= |a|
    ensures (a + b)[..n] == a[..n]
  {
  }

  /** Writing a key twice leaves the second value. */
  lemma OverwriteTwice<K, V>(m: map<K, V>, k: K, a: V, b: V)
    ensures m[k := a][k := b] == m[k := b]
  {
  }

  /** Replacing the element just appended is appending the replacement. */
  lemma ReplaceAppended<T>(s: seq<T>, a: T, b: T)
    ensures (s + [a])[|s| := b] == s + [b]
  {
    assert forall i :: 0 <= i < |s| ==> (s + [a])[|s| := b][i] == s[i];
  }
}
