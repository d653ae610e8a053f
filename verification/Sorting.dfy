/** Stable sorting with a comparison callback, as `Array.prototype.sort` promises it. */
module Sorting {
  import opened Sequences

  ghost predicate Preorder<T(!new)>(cmp: (T, T) -> int) {
    && (forall a, b :: cmp(a, b) < 0 ==> cmp(b, a) > 0)
    && (forall a, b :: cmp(a, b) > 0 ==> cmp(b, a) < 0)
    && (forall a, b, c :: cmp(a, b) <= 0 && cmp(b, c) <= 0 ==> cmp(a, c) <= 0)
  }

  lemma StrictlyBefore<T(!new)>(a: T, b: T, c: T, cmp: (T, T) -> int)
    requires Preorder(cmp) && cmp(a, b) <= 0 && cmp(b, c) <= 0 && (cmp(a, b) < 0 || cmp(b, c) < 0)
    ensures cmp(a, c) < 0
  {
    assert cmp(b, c) <= 0 && cmp(c, a) <= 0 ==> cmp(b, a) <= 0;
    assert cmp(c, a) <= 0 && cmp(a, b) <= 0 ==> cmp(c, b) <= 0;
  }

  /** `x` goes behind every element that it does not precede. */
  function Insert<T>(s: seq<T>, x: T, cmp: (T, T) -> int): (r: seq<T>)
    ensures |r| == |s| + 1
  {
    if s == [] || cmp(s[|s| - 1], x) <= 0 then s + [x]
    else Insert(s[..|s| - 1], x, cmp) + [s[|s| - 1]]
  }

  function Sort<T>(s: seq<T>, cmp: (T, T) -> int): (r: seq<T>)
    ensures |r| == |s|
  {
    if s == [] then [] else Insert(Sort(s[..|s| - 1], cmp), s[|s| - 1], cmp)
  }

  function NotAfter<T>(cmp: (T, T) -> int): (T, T) -> bool {
    (a: T, b: T) => cmp(a, b) <= 0
  }

  ghost predicate Sorted<T>(s: seq<T>, cmp: (T, T) -> int) {
    Pairwise(s, NotAfter(cmp))
  }

  lemma {:induction false} InsertElements<T>(s: seq<T>, x: T, cmp: (T, T) -> int)
    ensures multiset(Insert(s, x, cmp)) == multiset(s) + multiset{x}
  {
    if s != [] && cmp(s[|s| - 1], x) > 0 {
      InsertElements(s[..|s| - 1], x, cmp);
      assert s == s[..|s| - 1] + [s[|s| - 1]];
    }
  }

  lemma {:induction false} SortElements<T>(s: seq<T>, cmp: (T, T) -> int)
    ensures multiset(Sort(s, cmp)) == multiset(s)
  {
    if s != [] {
      SortElements(s[..|s| - 1], cmp);
      InsertElements(Sort(s[..|s| - 1], cmp), s[|s| - 1], cmp);
      assert s == s[..|s| - 1] + [s[|s| - 1]];
    }
  }

  lemma SortedAppend<T>(s: seq<T>, x: T, cmp: (T, T) -> int)
    requires Sorted(s, cmp) && forall y :: y in s ==> cmp(y, x) <= 0
    ensures Sorted(s + [x], cmp)
  {
    var t := s + [x];
    forall i, j | 0 <= i < j < |t| ensures NotAfter(cmp)(t[i], t[j]) {
      if j == |s| {
        assert s[i] in s;
      } else {
        assert NotAfter(cmp)(s[i], s[j]);
      }
    }
  }

  lemma {:induction false} InsertSorted<T(!new)>(s: seq<T>, x: T, cmp: (T, T) -> int)
    requires Preorder(cmp) && Sorted(s, cmp)
    ensures Sorted(Insert(s, x, cmp), cmp)
  {
    if s == [] {
    } else {
      var front, last := s[..|s| - 1], s[|s| - 1];
      forall i | 0 <= i < |front| ensures cmp(front[i], last) <= 0 {
        assert NotAfter(cmp)(s[i], s[|s| - 1]);
      }
      if cmp(last, x) <= 0 {
        SortedAppend(s, x, cmp);
      } else {
        FrontSorted(s, cmp);
        InsertSorted(front, x, cmp);
        InsertElements(front, x, cmp);
        forall y | y in Insert(front, x, cmp) ensures cmp(y, last) <= 0 {
          assert y in multiset(Insert(front, x, cmp));
          assert y in front || y == x;
        }
        SortedAppend(Insert(front, x, cmp), last, cmp);
      }
    }
  }

  lemma FrontSorted<T>(s: seq<T>, cmp: (T, T) -> int)
    requires s != [] && Sorted(s, cmp)
    ensures Sorted(s[..|s| - 1], cmp)
  {
    var front := s[..|s| - 1];
    forall i, j | 0 <= i < j < |front| ensures NotAfter(cmp)(front[i], front[j]) {
      assert NotAfter(cmp)(s[i], s[j]);
    }
  }

  lemma {:induction false} InsertStable<T>(s: seq<T>, x: T, cmp: (T, T) -> int, p: T -> bool)
    requires forall y :: y in s && cmp(y, x) > 0 ==> !(p(x) && p(y))
    ensures Keep(Insert(s, x, cmp), p) == Keep(s + [x], p)
  {
    if s == [] || cmp(s[|s| - 1], x) <= 0 {
    } else {
      var front, last := s[..|s| - 1], s[|s| - 1];
      InsertStable(front, x, cmp, p);
      assert last in s;
      KeepLast(front, x, p);
      KeepLast(Insert(front, x, cmp), last, p);
      KeepLast(s, x, p);
      KeepLast(front, last, p);
      assert s == front + [last];
    }
  }

  /** The result is sorted, has the same elements, and leaves the elements of any class of equals
      (here: those that satisfy `p`) in their old order. */
  lemma {:induction false} SortIsStable<T(!new)>(s: seq<T>, cmp: (T, T) -> int, p: T -> bool)
    requires Preorder(cmp)
    requires forall a, b :: p(a) && p(b) ==> cmp(a, b) <= 0
    ensures Sorted(Sort(s, cmp), cmp)
    ensures multiset(Sort(s, cmp)) == multiset(s)
    ensures Keep(Sort(s, cmp), p) == Keep(s, p)
  {
    SortElements(s, cmp);
    if s != [] {
      var front, last := s[..|s| - 1], s[|s| - 1];
      SortIsStable(front, cmp, p);
      InsertSorted(Sort(front, cmp), last, cmp);
      InsertStable(Sort(front, cmp), last, cmp, p);
      KeepLast(Sort(front, cmp), last, p);
    }
  }
}
