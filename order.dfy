/** Python's ordering of strings, tuples and paths, and `sorted(...)`.
    Strings compare code point by code point with a proper prefix first;
    tuples and `pathlib` paths compare lexicographically by component. */
module Order {
  import opened Text

  /** `lt` is a strict total order. */
  ghost predicate StrictTotalOrder<T(!new)>(lt: (T, T) -> bool) {
    && (forall x :: !lt(x, x))
    && (forall x, y, z :: lt(x, y) && lt(y, z) ==> lt(x, z))
    && (forall x, y :: x == y || lt(x, y) || lt(y, x))
  }

  /** Lexicographic order on sequences built from a strict order on elements. */
  function LexLess<T(==)>(a: seq<T>, b: seq<T>, lt: (T, T) -> bool): bool
  {
    if b == [] then false
    else if a == [] then true
    else lt(a[0], b[0]) || (a[0] == b[0] && LexLess(a[1..], b[1..], lt))
  }

  lemma {:induction false} LexIrreflexive<T(!new)>(a: seq<T>, lt: (T, T) -> bool)
    requires StrictTotalOrder(lt)
    ensures !LexLess(a, a, lt)
  {
    if a != [] {
      LexIrreflexive(a[1..], lt);
    }
  }

  lemma {:induction false} LexTransitive<T(!new)>(a: seq<T>, b: seq<T>, c: seq<T>, lt: (T, T) -> bool)
    requires StrictTotalOrder(lt)
    requires LexLess(a, b, lt) && LexLess(b, c, lt)
    ensures LexLess(a, c, lt)
  {
    if a != [] {
      assert b != [] && c != [];
      if a[0] == b[0] && b[0] == c[0] {
        LexTransitive(a[1..], b[1..], c[1..], lt);
      }
    }
  }

  lemma {:induction false} LexTotal<T(!new)>(a: seq<T>, b: seq<T>, lt: (T, T) -> bool)
    requires StrictTotalOrder(lt)
    ensures a == b || LexLess(a, b, lt) || LexLess(b, a, lt)
  {
    if a != [] && b != [] && a[0] == b[0] {
      LexTotal(a[1..], b[1..], lt);
      if a[1..] == b[1..] {
        assert a == [a[0]] + a[1..] && b == [b[0]] + b[1..];
      }
    }
  }

  // ---------------------------------------------------------------------------
  // Python orderings
  // ---------------------------------------------------------------------------

  function CharLess(x: char, y: char): bool { x < y }

  /** `a < b` on Python strings. */
  function StrLess(a: string, b: string): bool { LexLess(a, b, CharLess) }

  lemma CharStrictTotal()
    ensures StrictTotalOrder(CharLess)
  {
  }

  lemma StrStrictTotal()
    ensures StrictTotalOrder(StrLess)
  {
    CharStrictTotal();
    forall a: string { LexIrreflexive(a, CharLess); }
    forall a: string, b: string, c: string | StrLess(a, b) && StrLess(b, c) {
      LexTransitive(a, b, c, CharLess);
    }
    forall a: string, b: string { LexTotal(a, b, CharLess); }
  }

  /** `a < b` on `(str, str)` tuples. */
  function StrPairLess(a: (string, string), b: (string, string)): bool {
    StrLess(a.0, b.0) || (a.0 == b.0 && StrLess(a.1, b.1))
  }

  /** `a < b` on `(str, int)` tuples. */
  function StrIntLess(a: (string, int), b: (string, int)): bool {
    StrLess(a.0, b.0) || (a.0 == b.0 && a.1 < b.1)
  }

  /** `a < b` on `pathlib` paths: the `/`-separated components compare as a
      list of strings. */
  function PathLess(a: string, b: string): bool {
    LexLess(Split(a, "/"), Split(b, "/"), StrLess)
  }

  lemma PathStrictTotal()
    ensures StrictTotalOrder(PathLess)
  {
    StrStrictTotal();
    forall a: string { LexIrreflexive(Split(a, "/"), StrLess); }
    forall a: string, b: string, c: string | PathLess(a, b) && PathLess(b, c) {
      LexTransitive(Split(a, "/"), Split(b, "/"), Split(c, "/"), StrLess);
    }
    forall a: string, b: string ensures a == b || PathLess(a, b) || PathLess(b, a) {
      LexTotal(Split(a, "/"), Split(b, "/"), StrLess);
      if Split(a, "/") == Split(b, "/") {
        JoinSplit(a, "/");
        JoinSplit(b, "/");
      }
    }
  }

  lemma StrPairStrictTotal()
    ensures StrictTotalOrder(StrPairLess)
  {
    StrStrictTotal();
  }

  lemma StrIntStrictTotal()
    ensures StrictTotalOrder(StrIntLess)
  {
    StrStrictTotal();
  }

  // ---------------------------------------------------------------------------
  // sorted(...)
  // ---------------------------------------------------------------------------

  /** No later element is smaller than an earlier one. */
  predicate SortedBy<T>(s: seq<T>, lt: (T, T) -> bool) {
    forall i, j :: 0 <= i < j < |s| ==> !lt(s[j], s[i])
  }

  /** Appending an element no earlier element follows keeps a sequence sorted. */
  lemma SortedSnoc<T>(s: seq<T>, x: T, lt: (T, T) -> bool)
    requires SortedBy(s, lt) && forall k :: 0 <= k < |s| ==> !lt(x, s[k])
    ensures SortedBy(s + [x], lt)
  {
    var t := s + [x];
    forall i, j | 0 <= i < j < |t| ensures !lt(t[j], t[i]) {
      if j < |s| {
        assert t[i] == s[i] && t[j] == s[j];
      } else {
        assert t[i] == s[i] && t[j] == x;
      }
    }
  }

  function Insert<T>(x: T, s: seq<T>, lt: (T, T) -> bool): (r: seq<T>)
    ensures multiset(r) == multiset(s) + multiset{x}
    ensures |r| == |s| + 1
  {
    if s == [] || !lt(s[0], x) then [x] + s
    else
      assert s == [s[0]] + s[1..];
      [s[0]] + Insert(x, s[1..], lt)
  }

  /** `sorted(s)`: a permutation of `s` in ascending order. */
  function Sort<T>(s: seq<T>, lt: (T, T) -> bool): (r: seq<T>)
    ensures multiset(r) == multiset(s)
    ensures |r| == |s|
  {
    if s == [] then []
    else
      assert s == [s[0]] + s[1..];
      Insert(s[0], Sort(s[1..], lt), lt)
  }

  lemma {:induction false} InsertSorted<T(!new)>(x: T, s: seq<T>, lt: (T, T) -> bool)
    requires StrictTotalOrder(lt)
    requires SortedBy(s, lt)
    ensures SortedBy(Insert(x, s, lt), lt)
  {
    if s != [] && lt(s[0], x) {
      var tail := s[1..];
      assert SortedBy(tail, lt);
      InsertSorted(x, tail, lt);
      var r := Insert(x, tail, lt);
      forall k | 0 <= k < |r| ensures !lt(r[k], s[0]) {
        assert r[k] in multiset(r);
        assert r[k] == x || r[k] in multiset(tail);
        if r[k] != x {
          var m :| 0 <= m < |tail| && tail[m] == r[k];
          assert tail[m] == s[m + 1];
        }
      }
    }
  }

  /** `sorted(s)` is in ascending order. */
  lemma {:induction false} SortSorted<T(!new)>(s: seq<T>, lt: (T, T) -> bool)
    requires StrictTotalOrder(lt)
    ensures SortedBy(Sort(s, lt), lt)
  {
    if s != [] {
      SortSorted(s[1..], lt);
      InsertSorted(s[0], Sort(s[1..], lt), lt);
    }
  }

  /** Two ascending sequences with the same elements are equal, so `sorted`
      is determined by the multiset it is given. */
  lemma {:induction false} SortedUnique<T(!new)>(a: seq<T>, b: seq<T>, lt: (T, T) -> bool)
    requires StrictTotalOrder(lt)
    requires SortedBy(a, lt) && SortedBy(b, lt) && multiset(a) == multiset(b)
    ensures a == b
    decreases |a|
  {
    if a != [] {
      assert |b| == |a| by { assert |multiset(a)| == |multiset(b)|; }
      SortedHeadsEqual(a, b, lt);
      var x := a[0];
      assert a == [x] + a[1..] && b == [x] + b[1..];
      assert multiset(a[1..]) == multiset(a) - multiset{x};
      assert multiset(b[1..]) == multiset(b) - multiset{x};
      assert SortedBy(a[1..], lt) && SortedBy(b[1..], lt);
      SortedUnique(a[1..], b[1..], lt);
    }
  }

  lemma SortedHeadsEqual<T(!new)>(a: seq<T>, b: seq<T>, lt: (T, T) -> bool)
    requires StrictTotalOrder(lt)
    requires SortedBy(a, lt) && SortedBy(b, lt) && multiset(a) == multiset(b)
    requires a != [] && b != []
    ensures a[0] == b[0]
  {
    assert a[0] in multiset(b);
    assert b[0] in multiset(a);
    var i :| 0 <= i < |b| && b[i] == a[0];
    var j :| 0 <= j < |a| && a[j] == b[0];
    assert !lt(a[0], b[0]) by { if i > 0 { assert !lt(b[i], b[0]); } }
    assert !lt(b[0], a[0]) by { if j > 0 { assert !lt(a[j], a[0]); } }
  }

  /** The elements of `s` without repeats, each at its first position. */
  function Dedup<T(==,!new)>(s: seq<T>): (r: seq<T>)
    ensures forall x :: x in r <==> x in s
    ensures forall i, j :: 0 <= i < j < |r| ==> r[i] != r[j]
  {
    if s == [] then []
    else
      var p := Dedup(s[..|s| - 1]);
      assert s == s[..|s| - 1] + [s[|s| - 1]];
      if s[|s| - 1] in p then p else p + [s[|s| - 1]]
  }

  /** `sorted(set(s))` */
  function SortedSet<T(==,!new)>(s: seq<T>, lt: (T, T) -> bool): (r: seq<T>)
    ensures forall x :: x in r <==> x in s
    ensures forall i, j :: 0 <= i < j < |r| ==> r[i] != r[j]
  {
    var d := Dedup(s);
    var r := Sort(d, lt);
    assert forall x :: x in r <==> x in d by {
      forall x ensures x in r <==> x in d {
        assert x in r <==> x in multiset(r);
        assert x in d <==> x in multiset(d);
      }
    }
    assert forall i, j :: 0 <= i < j < |r| ==> r[i] != r[j] by {
      forall i, j | 0 <= i < j < |r| ensures r[i] != r[j] {
        if r[i] == r[j] {
          assert multiset(r)[r[i]] >= 2 by {
            assert r == r[..j] + r[j..];
            assert multiset(r) == multiset(r[..j]) + multiset(r[j..]);
            assert r[i] in multiset(r[..j]) by { assert r[..j][i] == r[i]; }
            assert r[j] in multiset(r[j..]) by { assert r[j..][0] == r[j]; }
          }
          DistinctCount(d, r[i]);
        }
      }
    }
    r
  }

  lemma {:induction false} DedupOfDistinct<T(!new)>(s: seq<T>)
    requires forall i, j :: 0 <= i < j < |s| ==> s[i] != s[j]
    ensures Dedup(s) == s
  {
    if s != [] {
      var t := s[..|s| - 1];
      DedupOfDistinct(t);
      assert s[|s| - 1] !in t;
      assert s == t + [s[|s| - 1]];
    }
  }

  /** `sorted(set(s))` of an ascending, duplicate-free `s` is `s`. */
  lemma SortedSetOfSorted<T(!new)>(s: seq<T>, lt: (T, T) -> bool)
    requires StrictTotalOrder(lt)
    requires SortedBy(s, lt)
    requires forall i, j :: 0 <= i < j < |s| ==> s[i] != s[j]
    ensures SortedSet(s, lt) == s
  {
    DedupOfDistinct(s);
    SortSorted(s, lt);
    SortedUnique(Sort(s, lt), s, lt);
  }

  lemma {:induction false} DistinctCount<T>(d: seq<T>, x: T)
    requires forall i, j :: 0 <= i < j < |d| ==> d[i] != d[j]
    ensures multiset(d)[x] <= 1
  {
    if d != [] {
      var t := d[..|d| - 1];
      assert d == t + [d[|d| - 1]];
      DistinctCount(t, x);
      if x == d[|d| - 1] {
        assert x !in t;
        assert multiset(t)[x] == 0;
      }
    }
  }

  // ---------------------------------------------------------------------------
  // Comprehensions
  // ---------------------------------------------------------------------------

  /** `[y for x in s for y in f(x)]` */
  function FlatMap<A, B>(f: A -> seq<B>, s: seq<A>): seq<B>
  {
    if s == [] then [] else f(s[0]) + FlatMap(f, s[1..])
  }

  lemma {:induction false} FlatMapSplit<A, B>(f: A -> seq<B>, a: seq<A>, b: seq<A>)
    ensures FlatMap(f, a + b) == FlatMap(f, a) + FlatMap(f, b)
  {
    if a == [] {
      assert a + b == b;
    } else {
      assert (a + b)[1..] == a[1..] + b;
      FlatMapSplit(f, a[1..], b);
    }
  }

  lemma FlatMapSnoc<A, B>(f: A -> seq<B>, s: seq<A>, i: nat)
    requires i < |s|
    ensures FlatMap(f, s[..i + 1]) == FlatMap(f, s[..i]) + f(s[i])
  {
    assert s[..i + 1] == s[..i] + [s[i]];
    FlatMapSplit(f, s[..i], [s[i]]);
    assert FlatMap(f, [s[i]]) == f(s[i]) + FlatMap(f, []);
  }

  lemma ConcatAssoc<A>(a: seq<A>, b: seq<A>, c: seq<A>)
    ensures a + (b + c) == (a + b) + c
  {
  }

  lemma SnocTwo<A>(a: seq<A>, x: A, y: seq<A>)
    ensures a + [x] + y == a + ([x] + y)
  {
  }

  /** `[x for x in s if p(x)]` */
  function Filter<A(!new)>(p: A -> bool, s: seq<A>): (r: seq<A>)
    ensures |r| <= |s|
    ensures forall x :: x in r <==> x in s && p(x)
  {
    if s == [] then [] else (if p(s[0]) then [s[0]] else []) + Filter(p, s[1..])
  }

  /** A filter and its complement split the input, with multiplicity. */
  lemma {:induction false} FilterPartition<A(!new)>(p: A -> bool, q: A -> bool, s: seq<A>)
    requires forall k :: 0 <= k < |s| ==> q(s[k]) == !p(s[k])
    ensures multiset(Filter(p, s)) + multiset(Filter(q, s)) == multiset(s)
  {
    if s != [] {
      var x, t := s[0], s[1..];
      forall k | 0 <= k < |t| ensures q(t[k]) == !p(t[k]) {
        assert t[k] == s[k + 1];
      }
      FilterPartition(p, q, t);
      var mp, mq := multiset(Filter(p, t)), multiset(Filter(q, t));
      assert multiset(s) == multiset{x} + multiset(t) by { assert s == [x] + t; }
      if p(x) {
        assert Filter(p, s) == [x] + Filter(p, t);
        assert multiset(Filter(p, s)) == multiset{x} + mp;
        assert Filter(q, s) == Filter(q, t);
      } else {
        assert Filter(p, s) == Filter(p, t);
        assert Filter(q, s) == [x] + Filter(q, t);
        assert multiset(Filter(q, s)) == multiset{x} + mq;
      }
    }
  }

  lemma {:induction false} FilterSnoc<A(!new)>(p: A -> bool, s: seq<A>, x: A)
    ensures Filter(p, s + [x]) == Filter(p, s) + (if p(x) then [x] else [])
  {
    if s != [] {
      assert (s + [x])[1..] == s[1..] + [x];
      FilterSnoc(p, s[1..], x);
    } else {
      assert s + [x] == [x];
    }
  }

  /** A two-element input, unrolled. */
  lemma FilterTwo<A(!new)>(p: A -> bool, x0: A, x1: A)
    ensures Filter(p, [x0, x1]) == (if p(x0) then [x0] else []) + (if p(x1) then [x1] else [])
  {
    assert [x0, x1][1..] == [x1] && [x1][1..] == [];
  }

  /** A five-element input, unrolled. */
  lemma FlatMapFive<A, B>(f: A -> seq<B>, x0: A, x1: A, x2: A, x3: A, x4: A)
    ensures FlatMap(f, [x0, x1, x2, x3, x4]) == f(x0) + f(x1) + f(x2) + f(x3) + f(x4)
  {
    assert [x4][1..] == [];
    assert FlatMap(f, [x4]) == f(x4) + FlatMap(f, []);
    assert [x3, x4][1..] == [x4];
    assert FlatMap(f, [x3, x4]) == f(x3) + FlatMap(f, [x4]);
    assert [x2, x3, x4][1..] == [x3, x4];
    assert FlatMap(f, [x2, x3, x4]) == f(x2) + FlatMap(f, [x3, x4]);
    assert [x1, x2, x3, x4][1..] == [x2, x3, x4];
    assert FlatMap(f, [x1, x2, x3, x4]) == f(x1) + FlatMap(f, [x2, x3, x4]);
    assert [x0, x1, x2, x3, x4][1..] == [x1, x2, x3, x4];
  }

  /** An element of the output comes from the image of some input. */
  lemma {:induction false} FlatMapMembers<A, B>(f: A -> seq<B>, s: seq<A>, y: B)
    ensures y in FlatMap(f, s) <==> exists i :: 0 <= i < |s| && y in f(s[i])
    decreases |s|
  {
    if s != [] {
      FlatMapMembers(f, s[1..], y);
      if exists i :: 0 <= i < |s| && y in f(s[i]) {
        var i :| 0 <= i < |s| && y in f(s[i]);
        if i > 0 {
          assert s[1..][i - 1] == s[i];
        }
      }
      if exists i :: 0 <= i < |s[1..]| && y in f(s[1..][i]) {
        var i :| 0 <= i < |s[1..]| && y in f(s[1..][i]);
        assert s[i + 1] == s[1..][i];
      }
    }
  }

  /** The multiset of the output depends only on the multiset of the input. */
  lemma {:induction false} FlatMapPermutation<A, B>(f: A -> seq<B>, a: seq<A>, b: seq<A>)
    requires multiset(a) == multiset(b)
    ensures multiset(FlatMap(f, a)) == multiset(FlatMap(f, b))
    decreases |a|
  {
    if a != [] {
      var x := a[0];
      assert x in multiset(b);
      var k :| 0 <= k < |b| && b[k] == x;
      var left, right := b[..k], b[k + 1..];
      assert b == left + ([x] + right);
      RemoveMatching(a, b, k);
      FlatMapPermutation(f, a[1..], left + right);
      FlatMapAround(f, left, x, right);
      assert multiset(FlatMap(f, a)) == multiset(f(x)) + multiset(FlatMap(f, a[1..]));
    }
  }

  lemma RemoveMatching<A>(a: seq<A>, b: seq<A>, k: nat)
    requires multiset(a) == multiset(b) && a != [] && k < |b| && b[k] == a[0]
    ensures multiset(a[1..]) == multiset(b[..k] + b[k + 1..])
  {
    var x := a[0];
    var rest := b[..k] + b[k + 1..];
    assert a == [x] + a[1..];
    assert b == b[..k] + [x] + b[k + 1..];
    assert multiset(a) == multiset{x} + multiset(a[1..]);
    assert multiset(b) == multiset{x} + multiset(rest);
    forall y ensures multiset(a[1..])[y] == multiset(rest)[y] {
      assert multiset(a)[y] == multiset(b)[y];
    }
  }

  lemma FlatMapAround<A, B>(f: A -> seq<B>, left: seq<A>, x: A, right: seq<A>)
    ensures multiset(FlatMap(f, left + ([x] + right))) == multiset(f(x)) + multiset(FlatMap(f, left + right))
  {
    FlatMapSplit(f, left, [x] + right);
    FlatMapSplit(f, left, right);
    assert ([x] + right)[1..] == right;
    var fl, fr := FlatMap(f, left), FlatMap(f, right);
    assert FlatMap(f, left + ([x] + right)) == fl + (f(x) + fr);
  }

  /** The values of the `Some` entries, in order. */
  function Somes<T>(s: seq<Option<T>>): (r: seq<T>)
    ensures |r| <= |s|
  {
    if s == [] then []
    else
      var rest := Somes(s[..|s| - 1]);
      match s[|s| - 1]
      case None => rest
      case Some(x) => rest + [x]
  }

  lemma {:induction false} SomesMembers<T>(s: seq<Option<T>>, x: T)
    ensures x in Somes(s) <==> exists k :: 0 <= k < |s| && s[k] == Some(x)
  {
    if s != [] {
      var init := s[..|s| - 1];
      SomesMembers(init, x);
      if exists k :: 0 <= k < |s| && s[k] == Some(x) {
        var k :| 0 <= k < |s| && s[k] == Some(x);
        if k < |init| {
          assert init[k] == s[k];
        }
      }
      if exists k :: 0 <= k < |init| && init[k] == Some(x) {
        var k :| 0 <= k < |init| && init[k] == Some(x);
        assert s[k] == init[k];
      }
    }
  }
}
