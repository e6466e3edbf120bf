/** Three-way comparisons, and the stable insertion sort that the sorting calls of the
    policy engine are measured against. */
module Ordering {

  /** A comparison in the style of `cmp.Compare`: negative, zero or positive. */
  type Comparison<!T> = (T, T) -> int

  ghost predicate Laws<T>(cmp: Comparison<T>, a: T, b: T, c: T) {
    && cmp(a, a) == 0
    && (cmp(a, b) < 0 <==> cmp(b, a) > 0)
    && (cmp(a, b) <= 0 && cmp(b, c) <= 0 ==> cmp(a, c) <= 0)
  }

  /** A consistent comparison: elements may tie, but ties and order are transitive. */
  ghost predicate Preorder<T(!new)>(cmp: Comparison<T>) {
    forall a, b, c :: Laws(cmp, a, b, c)
  }

  predicate Sorted<T>(cmp: Comparison<T>, s: seq<T>) {
    forall i, j :: 0 <= i < j < |s| ==> cmp(s[i], s[j]) <= 0
  }

  /** Only equal elements tie. */
  predicate Distinguishes<T(==)>(cmp: Comparison<T>, s: seq<T>) {
    forall x, y :: x in s && y in s && cmp(x, y) == 0 ==> x == y
  }

  /** Puts x before the first element that is not smaller. */
  function Insert<T>(cmp: Comparison<T>, x: T, s: seq<T>): seq<T> {
    if s == [] || cmp(x, s[0]) <= 0 then [x] + s else [s[0]] + Insert(cmp, x, s[1..])
  }

  /** Stable sort: ties keep the order they came in (see SortIsStable). */
  function Sort<T>(cmp: Comparison<T>, s: seq<T>): seq<T> {
    if s == [] then [] else Insert(cmp, s[0], Sort(cmp, s[1..]))
  }

  /** The elements of s that tie with key, in order. */
  function Ties<T>(cmp: Comparison<T>, key: T, s: seq<T>): seq<T> {
    if s == [] then []
    else (if cmp(key, s[0]) == 0 then [s[0]] else []) + Ties(cmp, key, s[1..])
  }

  lemma {:induction false} InsertPermutes<T>(cmp: Comparison<T>, x: T, s: seq<T>)
    ensures multiset(Insert(cmp, x, s)) == multiset{x} + multiset(s)
  {
    if !(s == [] || cmp(x, s[0]) <= 0) {
      InsertPermutes(cmp, x, s[1..]);
      assert s == [s[0]] + s[1..];
    }
  }

  lemma {:induction false} SortPermutes<T>(cmp: Comparison<T>, s: seq<T>)
    ensures multiset(Sort(cmp, s)) == multiset(s)
    ensures |Sort(cmp, s)| == |s|
  {
    if s != [] {
      SortPermutes(cmp, s[1..]);
      InsertPermutes(cmp, s[0], Sort(cmp, s[1..]));
      assert s == [s[0]] + s[1..];
    }
    assert |multiset(Sort(cmp, s))| == |multiset(s)|;
  }

  lemma {:induction false} InsertKeepsSorted<T(!new)>(cmp: Comparison<T>, x: T, s: seq<T>)
    requires Preorder(cmp) && Sorted(cmp, s)
    ensures Sorted(cmp, Insert(cmp, x, s))
  {
    if s == [] {
    } else if cmp(x, s[0]) <= 0 {
      forall j | 0 <= j < |s| ensures cmp(x, s[j]) <= 0 {
        assert Laws(cmp, s[0], s[0], s[0]) && Laws(cmp, x, s[0], s[j]);
      }
    } else {
      InsertKeepsSorted(cmp, x, s[1..]);
      InsertPermutes(cmp, x, s[1..]);
      var r := Insert(cmp, x, s[1..]);
      assert Laws(cmp, x, s[0], x) && Laws(cmp, s[0], x, x);
      forall j | 0 <= j < |r| ensures cmp(s[0], r[j]) <= 0 {
        assert r[j] in multiset(r);
        assert r[j] == x || r[j] in s[1..];
      }
    }
  }

  lemma {:induction false} SortIsSorted<T(!new)>(cmp: Comparison<T>, s: seq<T>)
    requires Preorder(cmp)
    ensures Sorted(cmp, Sort(cmp, s))
  {
    if s != [] {
      SortIsSorted(cmp, s[1..]);
      InsertKeepsSorted(cmp, s[0], Sort(cmp, s[1..]));
    }
  }

  lemma TiesOfFirst<T>(cmp: Comparison<T>, key: T, x: T, s: seq<T>)
    ensures Ties(cmp, key, [x] + s) == Ties(cmp, key, [x]) + Ties(cmp, key, s)
    ensures Ties(cmp, key, [x]) == if cmp(key, x) == 0 then [x] else []
  {
    assert ([x] + s)[1..] == s;
    assert [x][1..] == [];
  }

  lemma {:induction false} InsertIsStable<T(!new)>(cmp: Comparison<T>, key: T, x: T, s: seq<T>)
    requires Preorder(cmp)
    ensures Ties(cmp, key, Insert(cmp, x, s)) == Ties(cmp, key, [x]) + Ties(cmp, key, s)
  {
    if s == [] || cmp(x, s[0]) <= 0 {
      TiesOfFirst(cmp, key, x, s);
    } else {
      InsertIsStable(cmp, key, x, s[1..]);
      TiesOfFirst(cmp, key, s[0], Insert(cmp, x, s[1..]));
      TiesOfFirst(cmp, key, s[0], s[1..]);
      TiesOfFirst(cmp, key, x, []);
      assert [s[0]] + s[1..] == s;
      TiesAreTransitive(cmp, key, x, s[0]);
    }
  }

  lemma TiesAreTransitive<T(!new)>(cmp: Comparison<T>, key: T, x: T, y: T)
    requires Preorder(cmp) && cmp(x, y) > 0
    ensures cmp(key, x) != 0 || cmp(key, y) != 0
  {
    assert Laws(cmp, x, key, y) && Laws(cmp, key, x, x);
  }

  /** Sorting keeps every group of tied elements in its original order. */
  lemma {:induction false} SortIsStable<T(!new)>(cmp: Comparison<T>, key: T, s: seq<T>)
    requires Preorder(cmp)
    ensures Ties(cmp, key, Sort(cmp, s)) == Ties(cmp, key, s)
  {
    if s != [] {
      SortIsStable(cmp, key, s[1..]);
      InsertIsStable(cmp, key, s[0], Sort(cmp, s[1..]));
    }
  }

  /** A sorted sequence is already its own stable sort. */
  lemma {:induction false} SortOfSorted<T>(cmp: Comparison<T>, s: seq<T>)
    requires Sorted(cmp, s)
    ensures Sort(cmp, s) == s
  {
    if s != [] {
      SortOfSorted(cmp, s[1..]);
    }
  }

  lemma LeastIsUnique<T(!new)>(cmp: Comparison<T>, a: seq<T>, b: seq<T>)
    requires Preorder(cmp) && a != [] && b != []
    requires Sorted(cmp, a) && Sorted(cmp, b) && b[0] in a && a[0] in b
    ensures cmp(a[0], b[0]) == 0
  {
    assert Laws(cmp, a[0], b[0], a[0]);
  }

  lemma SameRest<T>(a: seq<T>, b: seq<T>)
    requires a != [] && b != [] && a[0] == b[0] && multiset(a) == multiset(b)
    ensures multiset(a[1..]) == multiset(b[1..])
  {
    assert a == [a[0]] + a[1..] && b == [b[0]] + b[1..];
    assert multiset(a[1..]) == multiset(a) - multiset{a[0]};
  }

  /** Where only equal elements tie, a sorted arrangement is unique. */
  lemma {:induction false} SortedIsUnique<T(!new)>(cmp: Comparison<T>, a: seq<T>, b: seq<T>)
    requires Preorder(cmp)
    requires Sorted(cmp, a) && Sorted(cmp, b) && multiset(a) == multiset(b)
    requires Distinguishes(cmp, a)
    ensures a == b
  {
    if a == [] {
      assert |multiset(b)| == 0;
    } else {
      assert a[0] in multiset(b);
      assert b[0] in multiset(a);
      LeastIsUnique(cmp, a, b);
      SameRest(a, b);
      SortedIsUnique(cmp, a[1..], b[1..]);
      assert a == [a[0]] + a[1..] && b == [b[0]] + b[1..];
    }
  }

  /** Rearranging the input does not change a sort in which only equal elements tie. */
  lemma SortForgetsOrder<T(!new)>(cmp: Comparison<T>, a: seq<T>, b: seq<T>)
    requires Preorder(cmp)
    requires multiset(a) == multiset(b) && Distinguishes(cmp, a)
    ensures Sort(cmp, a) == Sort(cmp, b)
  {
    SortIsSorted(cmp, a);
    SortIsSorted(cmp, b);
    SortPermutes(cmp, a);
    SortPermutes(cmp, b);
    var s := Sort(cmp, a);
    forall x | x in s ensures x in a {
      assert x in multiset(s);
    }
    SortedIsUnique(cmp, s, Sort(cmp, b));
  }

  /** `strings.Compare`: lexicographic order. */
  function CompareStrings(a: string, b: string): int {
    if a == [] then (if b == [] then 0 else -1)
    else if b == [] then 1
    else if a[0] < b[0] then -1
    else if a[0] > b[0] then 1
    else CompareStrings(a[1..], b[1..])
  }

  lemma {:induction false} StringTiesAreEqual(a: string, b: string)
    ensures CompareStrings(a, b) == 0 <==> a == b
  {
    if a != [] && b != [] && a[0] == b[0] {
      StringTiesAreEqual(a[1..], b[1..]);
      assert a == [a[0]] + a[1..] && b == [b[0]] + b[1..];
    }
  }

  lemma {:induction false} StringsFlip(a: string, b: string)
    ensures CompareStrings(a, b) < 0 <==> CompareStrings(b, a) > 0
  {
    if a != [] && b != [] && a[0] == b[0] {
      StringsFlip(a[1..], b[1..]);
    }
  }

  lemma {:induction false} StringsTransitive(a: string, b: string, c: string)
    requires CompareStrings(a, b) <= 0 && CompareStrings(b, c) <= 0
    ensures CompareStrings(a, c) <= 0
  {
    if a != [] && b != [] && c != [] && a[0] == b[0] == c[0] {
      StringsTransitive(a[1..], b[1..], c[1..]);
    }
  }

  /** The strings agree in front of n, and there one ends or has the smaller character. */
  predicate DiffersAt(a: string, b: string, n: nat) {
    && n <= |a| && n < |b| && a[..n] == b[..n]
    && (n == |a| || a[n] < b[n])
  }

  lemma DiffersOneFurther(a: string, b: string, n: nat)
    requires a != [] && b != [] && a[0] == b[0]
    ensures DiffersAt(a[1..], b[1..], n) <==> DiffersAt(a, b, n + 1)
  {
    if n + 1 <= |a| && n + 1 <= |b| {
      assert a[..n + 1] == [a[0]] + a[1..][..n] && b[..n + 1] == [b[0]] + b[1..][..n];
      assert a[1..][..n] == a[..n + 1][1..] && b[1..][..n] == b[..n + 1][1..];
    }
  }

  /** A string comes before another one exactly if it is smaller where they differ first. */
  lemma {:induction false} StringsAreLexicographic(a: string, b: string)
    ensures CompareStrings(a, b) < 0 <==> exists n: nat :: DiffersAt(a, b, n)
  {
    if a != [] && b != [] && a[0] == b[0] {
      StringsAreLexicographic(a[1..], b[1..]);
      if n: nat :| DiffersAt(a[1..], b[1..], n) {
        DiffersOneFurther(a, b, n);
      }
      if n: nat :| DiffersAt(a, b, n) {
        DiffersOneFurther(a, b, n - 1);
      }
    } else if a == [] || b == [] || a[0] < b[0] {
      assert b != [] ==> DiffersAt(a, b, 0);
    }
  }

  /** Lexicographic comparison is a consistent order in which only equal strings tie. */
  lemma StringsAreOrdered()
    ensures Preorder(CompareStrings)
    ensures forall s :: Distinguishes(CompareStrings, s)
  {
    forall a, b, c ensures Laws(CompareStrings, a, b, c) {
      StringTiesAreEqual(a, a);
      StringsFlip(a, b);
      if CompareStrings(a, b) <= 0 && CompareStrings(b, c) <= 0 {
        StringsTransitive(a, b, c);
      }
    }
    forall s ensures Distinguishes(CompareStrings, s) { StringTiesDistinguish(s); }
  }

  lemma StringTiesDistinguish(s: seq<string>)
    ensures Distinguishes(CompareStrings, s)
  {
    forall x, y | x in s && y in s && CompareStrings(x, y) == 0
      ensures x == y
    {
      StringTiesAreEqual(x, y);
    }
  }
}
