/** Stable sorting by a strict order, the orders the operator sorts with, and
    filtering of lists. */
module Sorting {
  import opened Types

  // ----- filtering -----

  function Filter<T>(p: T -> bool, s: seq<T>): (r: seq<T>) {
    if s == [] then []
    else (if p(s[0]) then [s[0]] else []) + Filter(p, s[1..])
  }

  lemma {:induction false} FilterMultiset<T>(p: T -> bool, s: seq<T>, x: T)
    ensures multiset(Filter(p, s))[x] == if p(x) then multiset(s)[x] else 0
  {
    if s != [] {
      FilterMultiset(p, s[1..], x);
      assert s == [s[0]] + s[1..];
    }
  }

  lemma FilterMember<T>(p: T -> bool, s: seq<T>, x: T)
    ensures x in Filter(p, s) <==> x in s && p(x)
  {
    FilterMultiset(p, s, x);
    assert x in Filter(p, s) <==> multiset(Filter(p, s))[x] > 0;
    assert x in s <==> multiset(s)[x] > 0;
  }

  lemma FilterPermutation<T(!new)>(p: T -> bool, s: seq<T>, t: seq<T>)
    requires multiset(s) == multiset(t)
    ensures multiset(Filter(p, s)) == multiset(Filter(p, t))
  {
    var a, b := multiset(Filter(p, s)), multiset(Filter(p, t));
    forall x ensures a[x] == b[x] {
      FilterMultiset(p, s, x);
      FilterMultiset(p, t, x);
    }
    assert a == b;
  }

  lemma {:induction false} FilterAppend<T>(p: T -> bool, s: seq<T>, t: seq<T>)
    ensures Filter(p, s + t) == Filter(p, s) + Filter(p, t)
  {
    if s == [] {
      assert s + t == t;
    } else {
      FilterAppend(p, s[1..], t);
      assert (s + t)[0] == s[0] && (s + t)[1..] == s[1..] + t;
      var head := if p(s[0]) then [s[0]] else [];
      assert head + (Filter(p, s[1..]) + Filter(p, t)) == head + Filter(p, s[1..]) + Filter(p, t);
    }
  }

  lemma FilterOne<T>(p: T -> bool, x: T)
    ensures Filter(p, [x]) == if p(x) then [x] else []
  {
  }

  lemma {:induction false} FilterTwice<T>(p: T -> bool, q: T -> bool, r: T -> bool, s: seq<T>)
    requires forall x <- s :: r(x) <==> p(x) && q(x)
    ensures Filter(q, Filter(p, s)) == Filter(r, s)
  {
    if s != [] {
      FilterTwice(p, q, r, s[1..]);
      FilterAppend(q, if p(s[0]) then [s[0]] else [], Filter(p, s[1..]));
    }
  }

  // ----- stable sorting -----

  /** Puts x, which came before everything in s, in front of the first entry that is
      not smaller than it. */
  function Insert<T>(less: (T, T) -> bool, x: T, s: seq<T>): (r: seq<T>) {
    if s == [] then [x]
    else if less(s[0], x) then [s[0]] + Insert(less, x, s[1..])
    else [x] + s
  }

  function StableSort<T>(less: (T, T) -> bool, s: seq<T>): (r: seq<T>) {
    if s == [] then [] else Insert(less, s[0], StableSort(less, s[1..]))
  }

  ghost predicate StrictWeakOrder<T(!new)>(less: (T, T) -> bool) {
    && (forall a :: !less(a, a))
    && (forall a, b, c :: less(a, b) && less(b, c) ==> less(a, c))
    && (forall a, b, c :: less(a, c) ==> less(a, b) || less(b, c))
  }

  ghost predicate Sorted<T>(less: (T, T) -> bool, s: seq<T>) {
    forall i, j :: 0 <= i < j < |s| ==> !less(s[j], s[i])
  }

  lemma {:induction false} InsertIsPermutation<T>(less: (T, T) -> bool, x: T, s: seq<T>)
    ensures multiset(Insert(less, x, s)) == multiset([x] + s)
  {
    if s != [] && less(s[0], x) {
      InsertIsPermutation(less, x, s[1..]);
      assert s == [s[0]] + s[1..];
      assert multiset([x] + s) == multiset([s[0]]) + multiset([x] + s[1..]);
    }
  }

  lemma {:induction false} StableSortIsPermutation<T>(less: (T, T) -> bool, s: seq<T>)
    ensures multiset(StableSort(less, s)) == multiset(s)
  {
    if s != [] {
      StableSortIsPermutation(less, s[1..]);
      InsertIsPermutation(less, s[0], StableSort(less, s[1..]));
      assert s == [s[0]] + s[1..];
    }
  }

  lemma SortedPrepend<T>(less: (T, T) -> bool, x: T, s: seq<T>)
    requires Sorted(less, s) && forall y <- s :: !less(y, x)
    ensures Sorted(less, [x] + s)
  {
  }

  lemma InsertMembers<T>(less: (T, T) -> bool, x: T, s: seq<T>, y: T)
    requires y in Insert(less, x, s)
    ensures y == x || y in s
  {
  }

  lemma NotBelowHead<T(!new)>(less: (T, T) -> bool, s: seq<T>, y: T)
    requires StrictWeakOrder(less) && Sorted(less, s) && y in s
    ensures !less(y, s[0])
  {
  }

  lemma {:induction false} InsertSorted<T(!new)>(less: (T, T) -> bool, x: T, s: seq<T>)
    requires StrictWeakOrder(less) && Sorted(less, s)
    ensures Sorted(less, Insert(less, x, s))
  {
    if s != [] {
      if less(s[0], x) {
        TailIsSorted(less, s);
        InsertSorted(less, x, s[1..]);
        var r := Insert(less, x, s[1..]);
        forall y <- r ensures !less(y, s[0]) {
          InsertMembers(less, x, s[1..], y);
          if y != x { NotBelowHead(less, s, y); }
        }
        SortedPrepend(less, s[0], r);
      } else {
        forall y <- s ensures !less(y, x) {
          NotBelowHead(less, s, y);
        }
        SortedPrepend(less, x, s);
      }
    }
  }

  lemma {:induction false} StableSortSorts<T(!new)>(less: (T, T) -> bool, s: seq<T>)
    requires StrictWeakOrder(less)
    ensures Sorted(less, StableSort(less, s))
  {
    if s != [] {
      StableSortSorts(less, s[1..]);
      InsertSorted(less, s[0], StableSort(less, s[1..]));
    }
  }

  /** Neither of two entries comes before the other. */
  function TiesWith<T>(less: (T, T) -> bool, x: T): T -> bool {
    y => !less(x, y) && !less(y, x)
  }

  lemma {:induction false} InsertKeepsTies<T>(less: (T, T) -> bool, tie: T -> bool, s: seq<T>, y: T)
    requires forall a <- s :: less(a, y) ==> !(tie(a) && tie(y))
    ensures Filter(tie, Insert(less, y, s)) == Filter(tie, [y] + s)
  {
    if s != [] && less(s[0], y) {
      var a, b, rest := Filter(tie, [s[0]]), Filter(tie, [y]), Filter(tie, s[1..]);
      assert s[0] in s;
      FilterOne(tie, s[0]);
      FilterOne(tie, y);
      calc {
        Filter(tie, Insert(less, y, s));
        { FilterAppend(tie, [s[0]], Insert(less, y, s[1..])); }
        a + Filter(tie, Insert(less, y, s[1..]));
        { InsertKeepsTies(less, tie, s[1..], y); FilterAppend(tie, [y], s[1..]); }
        a + (b + rest);
        b + (a + rest);
        { FilterAppend(tie, [s[0]], s[1..]); assert s == [s[0]] + s[1..]; }
        b + Filter(tie, s);
        { FilterAppend(tie, [y], s); }
        Filter(tie, [y] + s);
      }
    }
  }

  /** Entries that tie keep the order they came in. */
  lemma {:induction false} StableSortKeepsTies<T(!new)>(less: (T, T) -> bool, s: seq<T>, x: T)
    requires StrictWeakOrder(less)
    ensures Filter(TiesWith(less, x), StableSort(less, s)) == Filter(TiesWith(less, x), s)
  {
    if s != [] {
      var tie := TiesWith(less, x);
      StableSortKeepsTies(less, s[1..], x);
      forall a | less(a, s[0]) ensures !(tie(a) && tie(s[0])) {
        assert less(a, x) || less(x, s[0]);
      }
      InsertKeepsTies(less, tie, StableSort(less, s[1..]), s[0]);
      FilterAppend(tie, [s[0]], StableSort(less, s[1..]));
    }
  }

  lemma SameLength<T>(s: seq<T>, t: seq<T>)
    requires multiset(s) == multiset(t)
    ensures |s| == |t|
  {
    assert |s| == |multiset(s)| == |multiset(t)| == |t|;
  }

  lemma TailsMatch<T>(s: seq<T>, t: seq<T>)
    requires s != [] && t != [] && s[0] == t[0] && multiset(s) == multiset(t)
    ensures multiset(s[1..]) == multiset(t[1..])
  {
    assert s == [s[0]] + s[1..] && t == [t[0]] + t[1..];
    assert multiset(s[1..]) == multiset(s) - multiset{s[0]};
    assert multiset(t[1..]) == multiset(t) - multiset{t[0]};
  }

  lemma SameHeadAndTail<T>(s: seq<T>, t: seq<T>)
    requires s != [] && t != [] && s[0] == t[0] && s[1..] == t[1..]
    ensures s == t
  {
  }

  /** Distinct entries are always ordered one way or the other. */
  ghost predicate NoTies<T>(less: (T, T) -> bool, s: seq<T>) {
    forall x <- s, y <- s :: x != y ==> less(x, y) || less(y, x)
  }

  lemma NoTiesWithin<T>(less: (T, T) -> bool, s: seq<T>, t: seq<T>)
    requires NoTies(less, s) && forall x <- t :: x in s
    ensures NoTies(less, t)
  {
  }

  lemma TailIsSorted<T>(less: (T, T) -> bool, s: seq<T>)
    requires Sorted(less, s) && s != []
    ensures Sorted(less, s[1..])
  {
  }

  lemma SortedHead<T>(less: (T, T) -> bool, s: seq<T>, t: seq<T>)
    requires Sorted(less, s) && Sorted(less, t)
    requires s != [] && t != [] && multiset(s) == multiset(t)
    requires NoTies(less, s)
    ensures s[0] == t[0]
  {
    assert t[0] in multiset(s) && s[0] in multiset(t);
    var i :| 0 <= i < |s| && s[i] == t[0];
    var j :| 0 <= j < |t| && t[j] == s[0];
    assert i > 0 ==> !less(t[0], s[0]);
    assert j > 0 ==> !less(s[0], t[0]);
  }

  /** A sorted arrangement is unique when distinct entries never tie. */
  lemma {:induction false} SortedUnique<T>(less: (T, T) -> bool, s: seq<T>, t: seq<T>)
    requires Sorted(less, s) && Sorted(less, t)
    requires multiset(s) == multiset(t)
    requires NoTies(less, s)
    ensures s == t
  {
    SameLength(s, t);
    if s != [] {
      SortedHead(less, s, t);
      TailsMatch(s, t);
      TailIsSorted(less, s);
      TailIsSorted(less, t);
      NoTiesWithin(less, s, s[1..]);
      SortedUnique(less, s[1..], t[1..]);
      SameHeadAndTail(s, t);
    }
  }

  /** Sorting forgets the order the list came in. */
  lemma StableSortPermutation<T(!new)>(less: (T, T) -> bool, s: seq<T>, t: seq<T>)
    requires StrictWeakOrder(less)
    requires multiset(s) == multiset(t)
    requires NoTies(less, s)
    ensures StableSort(less, s) == StableSort(less, t)
  {
    StableSortSorts(less, s);
    StableSortSorts(less, t);
    StableSortIsPermutation(less, s);
    StableSortIsPermutation(less, t);
    var a := StableSort(less, s);
    forall x <- a ensures x in s {
      assert x in multiset(a);
    }
    NoTiesWithin(less, s, a);
    SortedUnique(less, a, StableSort(less, t));
  }

  // ----- strings in byte order -----

  predicate StringLess(a: string, b: string) {
    b != [] && (a == [] || a[0] < b[0] || (a[0] == b[0] && StringLess(a[1..], b[1..])))
  }

  /** Byte order: the strings part at some position, where a ends or holds the smaller byte. */
  lemma {:induction false} StringLessMeaning(a: string, b: string)
    ensures StringLess(a, b) <==> exists n :: PartsAt(a, b, n)
  {
    if StringLess(a, b) {
      if a == [] || a[0] < b[0] {
        assert PartsAt(a, b, 0);
      } else {
        StringLessMeaning(a[1..], b[1..]);
        var n :| PartsAt(a[1..], b[1..], n);
        assert a[..n + 1] == [a[0]] + a[1..][..n] && b[..n + 1] == [b[0]] + b[1..][..n];
        assert PartsAt(a, b, n + 1);
      }
    }
    if n :| PartsAt(a, b, n) {
      if n > 0 {
        assert a[..n][0] == b[..n][0] && a[1..][..n - 1] == a[..n][1..] && b[1..][..n - 1] == b[..n][1..];
        assert PartsAt(a[1..], b[1..], n - 1);
        StringLessMeaning(a[1..], b[1..]);
      }
    }
  }

  ghost predicate PartsAt(a: string, b: string, n: int) {
    0 <= n <= |a| && n < |b| && a[..n] == b[..n] && (n == |a| || a[n] < b[n])
  }

  lemma StringTotal(a: string, b: string)
    ensures a != b ==> StringLess(a, b) || StringLess(b, a)
    ensures !(StringLess(a, b) && StringLess(b, a))
    ensures !StringLess(a, a)
  {
    if a != [] && b != [] && a[0] == b[0] {
      StringTotal(a[1..], b[1..]);
      assert a == [a[0]] + a[1..] && b == [b[0]] + b[1..];
    }
  }

  lemma StringTransitive(a: string, b: string, c: string)
    requires StringLess(a, b) && StringLess(b, c)
    ensures StringLess(a, c)
  {
  }

  lemma StringLessIsStrictWeak()
    ensures StrictWeakOrder(StringLess)
  {
    forall a ensures !StringLess(a, a) { StringTotal(a, a); }
    forall a, b, c | StringLess(a, b) && StringLess(b, c) ensures StringLess(a, c) {
      StringTransitive(a, b, c);
    }
    forall a, b, c | StringLess(a, c) ensures StringLess(a, b) || StringLess(b, c) {
      StringTotal(a, b);
      if StringLess(b, a) { StringTransitive(b, a, c); }
    }
  }

  /** Namespace first, then name: the order in which changed keys are enqueued. */
  predicate KeyLess(a: NamespacedName, b: NamespacedName) {
    if a.namespace != b.namespace then StringLess(a.namespace, b.namespace)
    else StringLess(a.name, b.name)
  }

  lemma KeyLessIsStrictWeak()
    ensures StrictWeakOrder(KeyLess)
    ensures forall a, b :: a != b ==> KeyLess(a, b) || KeyLess(b, a)
  {
    StringLessIsStrictWeak();
    forall a: NamespacedName, b: NamespacedName | a != b ensures KeyLess(a, b) || KeyLess(b, a) {
      StringTotal(a.namespace, b.namespace);
      StringTotal(a.name, b.name);
    }
    forall a: NamespacedName, b: NamespacedName, c: NamespacedName | KeyLess(a, c)
      ensures KeyLess(a, b) || KeyLess(b, c)
    {
      StringTotal(a.namespace, b.namespace);
      StringTotal(b.namespace, c.namespace);
    }
  }
}
