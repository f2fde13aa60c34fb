/**
 * The array operations the post pipelines use: `filter`, de-duplication through a `Set`
 * (which keeps first-insertion order), `flatMap`, and the built-in stable `sort` with a
 * numeric comparator or with the default string order.
 */
module Seqs {

  /** `s.filter(f)`. */
  function Filter<T>(s: seq<T>, f: T -> bool): seq<T>
  {
    if s == [] then []
    else if f(s[0]) then [s[0]] + Filter(s[1..], f)
    else Filter(s[1..], f)
  }

  /** The filter keeps exactly the elements passing `f`, each at most as often as in `s`. */
  lemma FilterSpec<T(!new)>(s: seq<T>, f: T -> bool)
    ensures |Filter(s, f)| <= |s|
    ensures forall x :: x in Filter(s, f) <==> x in s && f(x)
    ensures forall i :: 0 <= i < |Filter(s, f)| ==> f(Filter(s, f)[i])
    ensures multiset(Filter(s, f)) <= multiset(s)
  {
    FilterMultiset(s, f);
    FilterMembers(s, f);
  }

  lemma {:induction false} FilterMultiset<T>(s: seq<T>, f: T -> bool)
    ensures |Filter(s, f)| <= |s|
    ensures multiset(Filter(s, f)) <= multiset(s)
  {
    if s != [] {
      FilterMultiset(s[1..], f);
      assert s == [s[0]] + s[1..];
    }
  }

  lemma {:induction false} FilterMembers<T(!new)>(s: seq<T>, f: T -> bool)
    ensures forall x :: x in Filter(s, f) <==> x in s && f(x)
  {
    if s != [] {
      FilterMembers(s[1..], f);
      assert s == [s[0]] + s[1..];
    }
  }

  /** Filtering distributes over concatenation, so the kept elements stay in their order. */
  lemma {:induction false} FilterAppend<T(!new)>(a: seq<T>, b: seq<T>, f: T -> bool)
    ensures Filter(a + b, f) == Filter(a, f) + Filter(b, f)
  {
    if a == [] {
      assert a + b == b;
    } else {
      var ab := a + b;
      FilterAppend(a[1..], b, f);
      assert ab[0] == a[0] && ab[1..] == a[1..] + b;
      var fa := Filter(a[1..], f) + Filter(b, f);
      if f(a[0]) {
        calc {
          Filter(ab, f);
          [a[0]] + Filter(a[1..] + b, f);
          [a[0]] + fa;
          ([a[0]] + Filter(a[1..], f)) + Filter(b, f);
        }
      }
    }
  }

  /** A filter that every element passes keeps the whole sequence. */
  lemma {:induction false} FilterAllPass<T(!new)>(s: seq<T>, f: T -> bool)
    requires forall i :: 0 <= i < |s| ==> f(s[i])
    ensures Filter(s, f) == s
  {
    if s != [] {
      FilterAllPass(s[1..], f);
    }
  }

  /** Filters that agree on the elements of `s` keep the same elements. */
  lemma {:induction false} FilterExtensional<T(!new)>(s: seq<T>, f: T -> bool, g: T -> bool)
    requires forall x :: x in s ==> (f(x) <==> g(x))
    ensures Filter(s, f) == Filter(s, g)
  {
    if s != [] {
      FilterExtensional(s[1..], f, g);
    }
  }

  /** Filtering twice is filtering once by the conjunction. */
  lemma {:induction false} FilterFilter<T(!new)>(s: seq<T>, f: T -> bool, g: T -> bool)
    ensures Filter(Filter(s, f), g) == Filter(s, x => f(x) && g(x))
  {
    if s != [] {
      FilterFilter(s[1..], f, g);
    }
  }

  /** Filters by mutually exclusive tests together keep at most all the elements. */
  lemma {:induction false} ExclusiveFiltersBound<T(!new)>(s: seq<T>, f: T -> bool, g: T -> bool, h: T -> bool)
    requires forall x :: !(f(x) && g(x)) && !(f(x) && h(x)) && !(g(x) && h(x))
    ensures |Filter(s, f)| + |Filter(s, g)| + |Filter(s, h)| <= |s|
  {
    if s != [] {
      ExclusiveFiltersBound(s[1..], f, g, h);
    }
  }

  predicate NoDuplicates<T(==,!new)>(s: seq<T>) {
    forall i, j :: 0 <= i < j < |s| ==> s[i] != s[j]
  }

  /** The index of the first occurrence of `x` in `s`. */
  function FirstIndex<T(==,!new)>(s: seq<T>, x: T): (k: nat)
    requires x in s
    ensures k < |s| && s[k] == x
    ensures forall j :: 0 <= j < k ==> s[j] != x
  {
    if s[0] == x then 0 else 1 + FirstIndex(s[1..], x)
  }

  /** The distinct elements of `s` in order of first occurrence (`Array.from(new Set(s))`). */
  function Dedup<T(==,!new)>(s: seq<T>): (r: seq<T>)
    ensures NoDuplicates(r)
    ensures forall x :: x in r <==> x in s
    ensures |r| <= |s|
  {
    if s == [] then []
    else
      var d := Dedup(s[..|s| - 1]);
      var x := s[|s| - 1];
      assert forall y :: y in s <==> y in s[..|s| - 1] || y == x;
      if x in d then d else d + [x]
  }

  /** First-occurrence order: an element listed earlier first occurs earlier in the input. */
  lemma {:induction false} DedupFirstOccurrenceOrder<T(!new)>(s: seq<T>, i: nat, j: nat)
    requires i < j < |Dedup(s)|
    ensures FirstIndex(s, Dedup(s)[i]) < FirstIndex(s, Dedup(s)[j])
  {
    var init := s[..|s| - 1];
    var d := Dedup(init);
    var x := s[|s| - 1];
    FirstIndexOfPrefix(s, init, Dedup(s)[i]);
    if j < |d| {
      assert Dedup(s)[i] == d[i] && Dedup(s)[j] == d[j];
      DedupFirstOccurrenceOrder(init, i, j);
      FirstIndexOfPrefix(s, init, Dedup(s)[j]);
    } else {
      // the last element was new: it first occurs at the end of `s`
      assert Dedup(s) == d + [x] && Dedup(s)[j] == x && x !in init;
      assert FirstIndex(s, x) == |s| - 1;
    }
  }

  /** Occurrences inside a prefix are found at the same index in the whole sequence. */
  lemma FirstIndexOfPrefix<T(!new)>(s: seq<T>, init: seq<T>, y: T)
    requires |init| <= |s| && init == s[..|init|] && y in init
    ensures FirstIndex(s, y) == FirstIndex(init, y)
  {
    var k := FirstIndex(init, y);
    assert s[k] == y;
  }

  /** Appending an element: kept when new, dropped when already seen. */
  lemma DedupSnoc<T(!new)>(s: seq<T>, x: T)
    ensures Dedup(s + [x]) == if x in Dedup(s) then Dedup(s) else Dedup(s) + [x]
  {
    assert (s + [x])[..|s|] == s;
  }

  /**
   * The `forEach` loops that add every element of every list to a `Set`, read back with
   * `Array.from`: the distinct elements in order of first occurrence.
   */
  method CollectDistinct<T(==,!new)>(lists: seq<seq<T>>) returns (r: seq<T>)
    ensures r == Dedup(Flatten(lists))
  {
    r := [];
    var seen: set<T> := {};
    for i := 0 to |lists|
      invariant r == Dedup(Flatten(lists[..i]))
      invariant forall x :: x in seen <==> x in r
    {
      assert lists[..i + 1][..i] == lists[..i];
      r, seen := AddDistinct(r, seen, lists[i], Flatten(lists[..i]));
    }
    assert lists[..|lists|] == lists;
  }

  /** The inner loop: adds the elements of `xs` not seen yet, keeping `seen` the set of `r`. */
  method AddDistinct<T(==,!new)>(r0: seq<T>, seen0: set<T>, xs: seq<T>, ghost prefix: seq<T>)
      returns (r: seq<T>, seen: set<T>)
    requires r0 == Dedup(prefix) && forall x :: x in seen0 <==> x in r0
    ensures r == Dedup(prefix + xs) && forall x :: x in seen <==> x in r
  {
    r, seen := r0, seen0;
    assert prefix + xs[..0] == prefix;
    for j := 0 to |xs|
      invariant r == Dedup(prefix + xs[..j])
      invariant forall x :: x in seen <==> x in r
    {
      var x := xs[j];
      DedupSnoc(prefix + xs[..j], x);
      ExtendPrefix(prefix, xs, j);
      if x !in seen {
        r := r + [x];
        seen := seen + {x};
      }
    }
    assert xs[..|xs|] == xs;
  }

  lemma ExtendPrefix<T>(prefix: seq<T>, xs: seq<T>, j: nat)
    requires j < |xs|
    ensures prefix + xs[..j + 1] == (prefix + xs[..j]) + [xs[j]]
  {
    assert xs[..j + 1] == xs[..j] + [xs[j]];
  }

  /** Concatenation of the sequences in `ls`, in order (`ls.flat()`). */
  function Flatten<T>(ls: seq<seq<T>>): seq<T>
  {
    if ls == [] then [] else Flatten(ls[..|ls| - 1]) + ls[|ls| - 1]
  }

  lemma {:induction false} InFlatten<T>(ls: seq<seq<T>>, x: T)
    ensures x in Flatten(ls) <==> exists i :: 0 <= i < |ls| && x in ls[i]
  {
    if ls != [] {
      InFlatten(ls[..|ls| - 1], x);
      var last := |ls| - 1;
      if x in Flatten(ls[..last]) {
        var i :| 0 <= i < last && x in ls[..last][i];
        assert x in ls[i];
      }
      if exists i :: 0 <= i < |ls| && x in ls[i] {
        var i :| 0 <= i < |ls| && x in ls[i];
        if i < last {
          assert x in ls[..last][i];
        }
      }
    }
  }

  /** The first `n` elements, or all of them when there are fewer (`s.slice(0, n)`). */
  function Take<T>(s: seq<T>, n: nat): (r: seq<T>)
    ensures |r| == if |s| <= n then |s| else n
    ensures r == s[..|r|]
  {
    if |s| <= n then s else s[..n]
  }

  // ---- the built-in stable `sort`, for a comparator that is a total preorder ----

  /** `le` orders every pair and is transitive (what a consistent comparator provides). */
  ghost predicate TotalPreorder<T(!new)>(le: (T, T) -> bool) {
    && (forall a, b :: le(a, b) || le(b, a))
    && (forall a, b, c :: le(a, b) && le(b, c) ==> le(a, c))
  }

  predicate SortedBy<T>(s: seq<T>, le: (T, T) -> bool) {
    forall i, j :: 0 <= i < j < |s| ==> le(s[i], s[j])
  }

  /** Inserts `x` before the first element it may precede. */
  function InsertBy<T>(x: T, s: seq<T>, le: (T, T) -> bool): seq<T>
  {
    if s == [] || le(x, s[0]) then [x] + s else [s[0]] + InsertBy(x, s[1..], le)
  }

  /** A stable insertion sort. */
  function SortBy<T>(s: seq<T>, le: (T, T) -> bool): seq<T>
  {
    if s == [] then [] else InsertBy(s[0], SortBy(s[1..], le), le)
  }

  /** Inserting adds exactly one occurrence of `x`. */
  lemma {:induction false} InsertByElements<T(!new)>(x: T, s: seq<T>, le: (T, T) -> bool)
    ensures multiset(InsertBy(x, s, le)) == multiset(s) + multiset{x}
  {
    if s != [] && !le(x, s[0]) {
      InsertByElements(x, s[1..], le);
      assert s == [s[0]] + s[1..];
    }
  }

  /** A sorted sequence stays sorted under an element that may precede all of it. */
  lemma SortedCons<T>(y: T, t: seq<T>, le: (T, T) -> bool)
    requires SortedBy(t, le)
    requires forall j :: 0 <= j < |t| ==> le(y, t[j])
    ensures SortedBy([y] + t, le)
  {
    var r := [y] + t;
    forall i, j | 0 <= i < j < |r| ensures le(r[i], r[j]) {
      assert r[j] == t[j - 1];
      if i > 0 {
        assert r[i] == t[i - 1];
      }
    }
  }

  lemma {:induction false} InsertBySorted<T(!new)>(x: T, s: seq<T>, le: (T, T) -> bool)
    requires TotalPreorder(le) && SortedBy(s, le)
    ensures SortedBy(InsertBy(x, s, le), le)
  {
    if s == [] || le(x, s[0]) {
      forall j | 0 <= j < |s| ensures le(x, s[j]) {
        if j > 0 {
          assert le(s[0], s[j]);
        }
      }
      SortedCons(x, s, le);
    } else {
      var rest := InsertBy(x, s[1..], le);
      InsertBySorted(x, s[1..], le);
      InsertByElements(x, s[1..], le);
      assert le(s[0], x);
      forall j | 0 <= j < |rest| ensures le(s[0], rest[j]) {
        var y := rest[j];
        assert y in multiset(rest);
        if y != x {
          assert y in multiset(s[1..]);
          var k :| 0 <= k < |s[1..]| && s[1..][k] == y;
          assert s[k + 1] == y;
        }
      }
      SortedCons(s[0], rest, le);
    }
  }

  /** Sorting orders the elements by `le` and keeps exactly the same elements. */
  lemma {:induction false} SortByCorrect<T(!new)>(s: seq<T>, le: (T, T) -> bool)
    requires TotalPreorder(le)
    ensures SortedBy(SortBy(s, le), le)
    ensures multiset(SortBy(s, le)) == multiset(s)
    ensures |SortBy(s, le)| == |s|
  {
    if s != [] {
      SortByCorrect(s[1..], le);
      InsertBySorted(s[0], SortBy(s[1..], le), le);
      InsertByElements(s[0], SortBy(s[1..], le), le);
      assert s == [s[0]] + s[1..];
    }
  }

  /** Filtering a sorted sequence leaves it sorted. */
  lemma {:induction false} FilterPreservesSorted<T(!new)>(s: seq<T>, f: T -> bool, le: (T, T) -> bool)
    requires SortedBy(s, le)
    ensures SortedBy(Filter(s, f), le)
  {
    if s != [] {
      var rest := Filter(s[1..], f);
      FilterPreservesSorted(s[1..], f, le);
      if f(s[0]) {
        FilterSpec(s[1..], f);
        forall j | 0 <= j < |rest| ensures le(s[0], rest[j]) {
          assert rest[j] in s[1..];
        }
        SortedCons(s[0], rest, le);
      }
    }
  }

  /** Larger keys first (`(a, b) => key(b) - key(a)`). */
  function Descending<T(!new)>(key: T -> int): (le: (T, T) -> bool)
    ensures forall a, b :: le(a, b) <==> key(a) >= key(b)
  {
    (a, b) => key(a) >= key(b)
  }

  /** Smaller keys first (`(a, b) => key(a) - key(b)`). */
  function Ascending<T(!new)>(key: T -> int): (le: (T, T) -> bool)
    ensures forall a, b :: le(a, b) <==> key(a) <= key(b)
  {
    (a, b) => key(a) <= key(b)
  }

  lemma KeyOrdersArePreorders<T(!new)>(key: T -> int)
    ensures TotalPreorder(Descending(key)) && TotalPreorder(Ascending(key))
  {
  }

  /** `s.reduce((sum, x) => sum + f(x), 0)`. */
  function SumOf<T>(s: seq<T>, f: T -> int): int
  {
    if s == [] then 0 else f(s[0]) + SumOf(s[1..], f)
  }

  /** Elements failing the filter add nothing to a sum when they contribute 0. */
  lemma {:induction false} SumOfFilter<T(!new)>(s: seq<T>, keep: T -> bool, f: T -> int)
    requires forall x :: x in s && !keep(x) ==> f(x) == 0
    ensures SumOf(Filter(s, keep), f) == SumOf(s, f)
  {
    if s != [] {
      SumOfFilter(s[1..], keep, f);
    }
  }

  /** `s.map(f)`. */
  function MapOf<T, U>(s: seq<T>, f: T -> U): (r: seq<U>)
    ensures |r| == |s| && forall i :: 0 <= i < |s| ==> r[i] == f(s[i])
  {
    seq(|s|, i requires 0 <= i < |s| => f(s[i]))
  }

  /** Sorting permutes the elements, whatever the comparator. */
  lemma {:induction false} SortByPermutes<T(!new)>(s: seq<T>, le: (T, T) -> bool)
    ensures multiset(SortBy(s, le)) == multiset(s)
  {
    if s != [] {
      SortByPermutes(s[1..], le);
      InsertByElements(s[0], SortBy(s[1..], le), le);
      assert s == [s[0]] + s[1..];
    }
  }

  /** A prefix of a sorted copy holds only elements of `s`, and all of them when it is the whole copy. */
  lemma SortedPrefixMembers<T(!new)>(s: seq<T>, le: (T, T) -> bool, n: nat)
    ensures forall x :: x in Take(SortBy(s, le), n) ==> x in s
    ensures |s| <= n ==> forall x :: x in s ==> x in Take(SortBy(s, le), n)
  {
    var sorted := SortBy(s, le);
    SortByPermutes(s, le);
    assert forall x :: x in sorted <==> x in multiset(sorted);
    assert forall x :: x in s <==> x in multiset(s);
    assert |sorted| == |multiset(sorted)| == |s|;
    var r := Take(sorted, n);
    assert forall x :: x in r ==> x in sorted;
  }

  /** Lexicographic order on code points (the default `sort` order of strings). */
  predicate LexLe(a: string, b: string)
  {
    |a| == 0 || (|b| > 0 && (a[0] < b[0] || (a[0] == b[0] && LexLe(a[1..], b[1..]))))
  }

  lemma {:induction false} LexLeTotal(a: string, b: string)
    ensures LexLe(a, b) || LexLe(b, a)
  {
    if |a| > 0 && |b| > 0 && a[0] == b[0] {
      LexLeTotal(a[1..], b[1..]);
    }
  }

  lemma {:induction false} LexLeTransitive(a: string, b: string, c: string)
    requires LexLe(a, b) && LexLe(b, c)
    ensures LexLe(a, c)
  {
    if |a| > 0 && a[0] == b[0] && b[0] == c[0] {
      LexLeTransitive(a[1..], b[1..], c[1..]);
    }
  }

  /** Strings ordered both ways are equal. */
  lemma {:induction false} LexLeAntisymmetric(a: string, b: string)
    ensures LexLe(a, b) && LexLe(b, a) ==> a == b
  {
    if |a| > 0 && |b| > 0 && a[0] == b[0] {
      LexLeAntisymmetric(a[1..], b[1..]);
      assert a == [a[0]] + a[1..] && b == [b[0]] + b[1..];
    }
  }

  lemma LexLeIsTotalPreorder()
    ensures TotalPreorder(LexLe)
  {
    forall a, b ensures LexLe(a, b) || LexLe(b, a) {
      LexLeTotal(a, b);
    }
    forall a, b, c | LexLe(a, b) && LexLe(b, c) ensures LexLe(a, c) {
      LexLeTransitive(a, b, c);
    }
  }

  /** A permutation of a duplicate-free sequence is duplicate-free. */
  lemma PermutationNoDuplicates<T(!new)>(a: seq<T>, b: seq<T>)
    requires multiset(a) == multiset(b) && NoDuplicates(a)
    ensures NoDuplicates(b)
  {
    forall x | x in multiset(a) ensures multiset(a)[x] == 1 {
      NoDuplicatesCount(a, x);
    }
    forall i, j | 0 <= i < j < |b| ensures b[i] != b[j] {
      RepeatedElementCount(b, i, j);
    }
  }

  /** Two equal elements at distinct indices make that element's multiplicity at least two. */
  lemma RepeatedElementCount<T(!new)>(b: seq<T>, i: nat, j: nat)
    requires i < j < |b|
    ensures b[i] == b[j] ==> multiset(b)[b[i]] >= 2
  {
    if b[i] == b[j] {
      assert b == b[..i] + [b[i]] + b[i + 1..j] + [b[j]] + b[j + 1..];
    }
  }

  lemma {:induction false} NoDuplicatesCount<T(!new)>(s: seq<T>, x: T)
    requires NoDuplicates(s) && x in s
    ensures multiset(s)[x] == 1
  {
    if s[0] == x {
      assert x !in s[1..];
      assert s == [x] + s[1..];
    } else {
      NoDuplicatesCount(s[1..], x);
      assert s == [s[0]] + s[1..];
    }
  }
}
