/** A stable sort of the positions of a sequence, and how many elements precede each. */
module Ordering {

  /** Lexicographic order of strings. */
  predicate StringLess(a: string, b: string) {
    b != "" && (a == "" || a[0] < b[0] || (a[0] == b[0] && StringLess(a[1..], b[1..])))
  }

  lemma {:induction false} StringLessTotal(a: string, b: string)
    ensures StringLess(a, b) || StringLess(b, a) || a == b
    ensures !(StringLess(a, b) && StringLess(b, a))
    ensures !StringLess(a, a)
  {
    if a != "" && b != "" && a[0] == b[0] {
      StringLessTotal(a[1..], b[1..]);
      assert a == [a[0]] + a[1..] && b == [b[0]] + b[1..];
    }
    if a != "" {
      StringLessTotal(a[1..], a[1..]);
    }
  }

  lemma {:induction false} StringLessTransitive(a: string, b: string, c: string)
    requires StringLess(a, b) && StringLess(b, c)
    ensures StringLess(a, c)
  {
    if a != "" && a[0] == b[0] == c[0] {
      StringLessTransitive(a[1..], b[1..], c[1..]);
    }
  }

  /** The order, position by position: a proper prefix comes first, and otherwise the first difference decides. */
  lemma {:induction false} StringLessMeans(a: string, b: string)
    ensures StringLess(a, b) <==> exists i: nat :: FirstDifference(a, b, i)
  {
    if a != "" && b != "" {
      StringLessMeans(a[1..], b[1..]);
      assert a == [a[0]] + a[1..] && b == [b[0]] + b[1..];
      if a[0] == b[0] {
        if i: nat :| FirstDifference(a[1..], b[1..], i) {
          assert a[..i + 1] == [a[0]] + a[1..][..i] && b[..i + 1] == [b[0]] + b[1..][..i];
          assert FirstDifference(a, b, i + 1);
        }
        if i: nat :| FirstDifference(a, b, i) {
          assert i > 0;
          assert a[1..][..i - 1] == a[1..i] && b[1..][..i - 1] == b[1..i];
          assert a[1..i] == a[..i][1..] && b[1..i] == b[..i][1..];
          assert FirstDifference(a[1..], b[1..], i - 1);
        }
      } else {
        if a[0] < b[0] {
          assert FirstDifference(a, b, 0);
        }
      }
    } else if a == "" && b != "" {
      assert FirstDifference(a, b, 0);
    }
  }

  predicate FirstDifference(a: string, b: string, i: nat) {
    && i <= |a| && i < |b| && a[..i] == b[..i]
    && (i == |a| || a[i] < b[i])
  }

  /** A strict weak order: elements neither way related are interchangeable. */
  ghost predicate StrictWeak<T(!new)>(less: (T, T) -> bool) {
    && (forall a, b :: less(a, b) ==> !less(b, a))
    && (forall a, b, c :: less(a, b) && less(b, c) ==> less(a, c))
    && (forall a, b, c :: less(a, c) ==> less(a, b) || less(b, c))
  }

  predicate Within(order: seq<nat>, n: nat) {
    forall a | 0 <= a < |order| :: order[a] < n
  }

  /** The order of positions: by value, and by position among equals. */
  predicate Before<T>(less: (T, T) -> bool, s: seq<T>, j: nat, i: nat)
    requires j < |s| && i < |s|
  {
    less(s[j], s[i]) || (!less(s[i], s[j]) && j < i)
  }

  function Insert<T>(less: (T, T) -> bool, s: seq<T>, order: seq<nat>, i: nat): seq<nat>
    requires i < |s| && Within(order, |s|)
  {
    if order == [] || less(s[i], s[order[0]]) then [i] + order
    else [order[0]] + Insert(less, s, order[1..], i)
  }

  /** The kept positions among the first n, stably sorted. */
  function Sorted<T>(less: (T, T) -> bool, keep: T -> bool, s: seq<T>, n: nat): (order: seq<nat>)
    requires n <= |s|
    ensures Within(order, n)
  {
    if n == 0 then []
    else
      var rest := Sorted(less, keep, s, n - 1);
      if keep(s[n - 1]) then
        InsertElements(less, s, rest, n - 1);
        Insert(less, s, rest, n - 1)
      else rest
  }

  lemma {:induction false} InsertElements<T>(less: (T, T) -> bool, s: seq<T>, order: seq<nat>, i: nat)
    requires i < |s| && Within(order, |s|)
    ensures |Insert(less, s, order, i)| == |order| + 1
    ensures forall n: nat | i < n && Within(order, n) :: Within(Insert(less, s, order, i), n)
    ensures forall k: nat :: k in Insert(less, s, order, i) <==> k in order || k == i
  {
    if !(order == [] || less(s[i], s[order[0]])) {
      InsertElements(less, s, order[1..], i);
      assert order == [order[0]] + order[1..];
      forall n: nat | i < n && Within(order, n) ensures Within(Insert(less, s, order, i), n) {
        assert Within(order[1..], n);
      }
    }
  }

  predicate Ordered<T>(less: (T, T) -> bool, s: seq<T>, order: seq<nat>) {
    && Within(order, |s|)
    && forall a, b | 0 <= a < b < |order| :: Before(less, s, order[a], order[b])
  }

  lemma {:induction false} InsertOrdered<T(!new)>(less: (T, T) -> bool, s: seq<T>, order: seq<nat>, i: nat)
    requires StrictWeak(less) && Ordered(less, s, order) && i < |s| && Within(order, i)
    ensures Within(Insert(less, s, order, i), i + 1)
    ensures Ordered(less, s, Insert(less, s, order, i))
  {
    InsertElements(less, s, order, i);
    var r := Insert(less, s, order, i);
    if order == [] || less(s[i], s[order[0]]) {
      forall a, b | 0 <= a < b < |r| ensures Before(less, s, r[a], r[b]) {
        if a == 0 && b > 1 {
          assert Before(less, s, order[0], order[b - 1]);
        }
      }
    } else {
      var rest := Insert(less, s, order[1..], i);
      InsertOrdered(less, s, order[1..], i);
      InsertElements(less, s, order[1..], i);
      assert order == [order[0]] + order[1..];
      forall b | 0 <= b < |rest| ensures Before(less, s, order[0], rest[b]) {
        if rest[b] != i {
          assert rest[b] in order[1..];
          var c :| 0 <= c < |order[1..]| && order[1..][c] == rest[b];
          assert order[c + 1] == rest[b];
        }
      }
    }
  }

  lemma {:induction false} SortedElements<T>(less: (T, T) -> bool, keep: T -> bool, s: seq<T>, n: nat)
    requires n <= |s|
    ensures forall k: nat :: k in Sorted(less, keep, s, n) <==> k < n && keep(s[k])
  {
    if n > 0 {
      SortedElements(less, keep, s, n - 1);
      InsertElements(less, s, Sorted(less, keep, s, n - 1), n - 1);
      hide Insert;
    }
  }

  lemma {:induction false} SortedAscends<T(!new)>(less: (T, T) -> bool, keep: T -> bool, s: seq<T>, n: nat)
    requires StrictWeak(less) && n <= |s|
    ensures Ordered(less, s, Sorted(less, keep, s, n))
  {
    if n > 0 {
      SortedAscends(less, keep, s, n - 1);
      if keep(s[n - 1]) {
        InsertOrdered(less, s, Sorted(less, keep, s, n - 1), n - 1);
      }
    }
  }

  /** The sort is one: it lists exactly the kept positions, each before the next. */
  lemma SortedIsOrdered<T(!new)>(less: (T, T) -> bool, keep: T -> bool, s: seq<T>, n: nat)
    requires StrictWeak(less) && n <= |s|
    ensures Ordered(less, s, Sorted(less, keep, s, n))
    ensures forall k: nat :: k in Sorted(less, keep, s, n) <==> k < n && keep(s[k])
  {
    SortedAscends(less, keep, s, n);
    SortedElements(less, keep, s, n);
  }

  /** The kept positions that come before position i. */
  function Preceding<T>(less: (T, T) -> bool, keep: T -> bool, s: seq<T>, i: nat): set<nat>
    requires i < |s|
  {
    set j: nat | j < |s| && keep(s[j]) && Before(less, s, j, i)
  }

  function Elements(order: seq<nat>): set<nat> {
    set k | k in order
  }

  lemma {:induction false} DistinctCount(order: seq<nat>)
    requires forall a, b | 0 <= a < b < |order| :: order[a] != order[b]
    ensures |Elements(order)| == |order|
  {
    if order != [] {
      var init, last := order[..|order| - 1], order[|order| - 1];
      DistinctCount(init);
      assert Elements(order) == Elements(init) + {last};
      assert last !in Elements(init);
    }
  }

  lemma OrderedIsDistinct<T(!new)>(less: (T, T) -> bool, s: seq<T>, order: seq<nat>)
    requires StrictWeak(less) && Ordered(less, s, order)
    ensures forall a, b | 0 <= a < b < |order| :: order[a] != order[b]
  {
    forall a, b | 0 <= a < b < |order| ensures order[a] != order[b] {
      assert Before(less, s, order[a], order[b]);
    }
  }

  lemma Places<T(!new)>(less: (T, T) -> bool, s: seq<T>, order: seq<nat>, a: nat, k: nat)
    requires StrictWeak(less) && Ordered(less, s, order) && a < |order| && k < |order|
    ensures Before(less, s, order[a], order[k]) <==> a < k
  {
    if k < a {
      assert Before(less, s, order[k], order[a]);
    }
  }

  /** The place of a position in the sort is the number of kept positions before it. */
  lemma PlaceIsCount<T(!new)>(less: (T, T) -> bool, keep: T -> bool, s: seq<T>, k: nat)
    requires StrictWeak(less)
    requires k < |Sorted(less, keep, s, |s|)|
    ensures
      var order := Sorted(less, keep, s, |s|);
      Preceding(less, keep, s, order[k]) == Elements(order[..k]) && |Preceding(less, keep, s, order[k])| == k
  {
    var order := Sorted(less, keep, s, |s|);
    SortedIsOrdered(less, keep, s, |s|);
    OrderedIsDistinct(less, s, order);
    DistinctCount(order[..k]);
    forall j: nat ensures j in Preceding(less, keep, s, order[k]) <==> j in order[..k] {
      if j in Preceding(less, keep, s, order[k]) {
        assert j in order;
        var a :| 0 <= a < |order| && order[a] == j;
        Places(less, s, order, a, k);
        assert a < k;
        assert order[..k][a] == j;
      }
      if j in order[..k] {
        var a :| 0 <= a < k && order[..k][a] == j;
        assert Before(less, s, order[a], order[k]);
        assert order[a] in order;
      }
    }
  }

  // ----- sorting values -----

  function InsertValue<T>(less: (T, T) -> bool, s: seq<T>, x: T): seq<T> {
    if s == [] || less(x, s[0]) then [x] + s else [s[0]] + InsertValue(less, s[1..], x)
  }

  function SortValues<T>(less: (T, T) -> bool, s: seq<T>): seq<T> {
    if s == [] then [] else InsertValue(less, SortValues(less, s[..|s| - 1]), s[|s| - 1])
  }

  predicate Ascending<T>(less: (T, T) -> bool, s: seq<T>) {
    forall a, b | 0 <= a < b < |s| :: !less(s[b], s[a])
  }

  lemma {:induction false} InsertValueAdds<T>(less: (T, T) -> bool, s: seq<T>, x: T)
    ensures multiset(InsertValue(less, s, x)) == multiset(s) + multiset{x}
  {
    if s != [] && !less(x, s[0]) {
      InsertValueAdds(less, s[1..], x);
      assert s == [s[0]] + s[1..];
    }
  }

  lemma FromInsertion<T>(less: (T, T) -> bool, s: seq<T>, x: T, k: nat)
    requires k < |InsertValue(less, s, x)|
    ensures InsertValue(less, s, x)[k] in s || InsertValue(less, s, x)[k] == x
  {
    InsertValueAdds(less, s, x);
    assert InsertValue(less, s, x)[k] in multiset(InsertValue(less, s, x));
  }

  lemma {:induction false} InsertValueAscends<T(!new)>(less: (T, T) -> bool, s: seq<T>, x: T)
    requires StrictWeak(less) && Ascending(less, s)
    ensures Ascending(less, InsertValue(less, s, x))
  {
    if s != [] && !less(x, s[0]) {
      var rest := InsertValue(less, s[1..], x);
      InsertValueAscends(less, s[1..], x);
      forall b: nat | b < |rest| ensures !less(rest[b], s[0]) {
        FromInsertion(less, s[1..], x, b);
        if rest[b] in s[1..] {
          var c: nat :| c < |s[1..]| && s[1..][c] == rest[b];
          assert !less(s[c + 1], s[0]);
        }
      }
    }
  }

  lemma {:induction false} SortValuesKeeps<T(!new)>(less: (T, T) -> bool, s: seq<T>)
    requires StrictWeak(less)
    ensures multiset(SortValues(less, s)) == multiset(s) && Ascending(less, SortValues(less, s))
  {
    if s != [] {
      SortValuesKeeps(less, s[..|s| - 1]);
      InsertValueAdds(less, SortValues(less, s[..|s| - 1]), s[|s| - 1]);
      InsertValueAscends(less, SortValues(less, s[..|s| - 1]), s[|s| - 1]);
      assert s == s[..|s| - 1] + [s[|s| - 1]];
    }
  }

  /** Unrelated elements are equal. */
  ghost predicate Separates<T(!new)>(less: (T, T) -> bool, s: seq<T>) {
    forall a, b :: a in s && b in s && a != b ==> less(a, b) || less(b, a)
  }

  lemma SameHead<T(!new)>(less: (T, T) -> bool, s: seq<T>, t: seq<T>)
    requires Ascending(less, s) && Ascending(less, t) && multiset(s) == multiset(t) && Separates(less, s)
    requires s != []
    ensures t != [] && s[0] == t[0]
  {
    assert s[0] in multiset(t);
    var a :| 0 <= a < |t| && t[a] == s[0];
    assert t[0] in multiset(s);
    var b :| 0 <= b < |s| && s[b] == t[0];
    assert a > 0 ==> !less(t[a], t[0]);
    assert b > 0 ==> !less(s[b], s[0]);
  }

  lemma SameTail<T(!new)>(less: (T, T) -> bool, s: seq<T>, t: seq<T>)
    requires multiset(s) == multiset(t) && s != [] && t != [] && s[0] == t[0]
    ensures multiset(s[1..]) == multiset(t[1..])
  {
    assert s == [s[0]] + s[1..] && t == [t[0]] + t[1..];
    assert multiset(s) == multiset{s[0]} + multiset(s[1..]);
    assert multiset(t) == multiset{t[0]} + multiset(t[1..]);
    assert multiset(s[1..]) == multiset(s) - multiset{s[0]};
    assert multiset(t[1..]) == multiset(t) - multiset{t[0]};
  }

  lemma {:induction false} OneAscending<T(!new)>(less: (T, T) -> bool, s: seq<T>, t: seq<T>)
    requires Ascending(less, s) && Ascending(less, t) && multiset(s) == multiset(t) && Separates(less, s)
    ensures s == t
  {
    if s == [] {
      assert |multiset(t)| == |t|;
    } else {
      SameHead(less, s, t);
      SameTail(less, s, t);
      assert Separates(less, s[1..]) by {
        assert forall a :: a in s[1..] ==> a in s;
      }
      OneAscending(less, s[1..], t[1..]);
      hide Separates, Ascending;
      assert s == [s[0]] + s[1..] && t == [t[0]] + t[1..];
    }
  }

  /** Sorting forgets the input order, and nothing else. */
  lemma SortedIffSame<T(!new)>(less: (T, T) -> bool, s: seq<T>, t: seq<T>)
    requires StrictWeak(less) && Separates(less, s)
    ensures SortValues(less, s) == SortValues(less, t) <==> multiset(s) == multiset(t)
  {
    SortValuesKeeps(less, s);
    SortValuesKeeps(less, t);
    if multiset(s) == multiset(t) {
      forall x | x in SortValues(less, s) ensures x in s {
        assert x in multiset(SortValues(less, s));
      }
      OneAscending(less, SortValues(less, s), SortValues(less, t));
    }
  }
}
