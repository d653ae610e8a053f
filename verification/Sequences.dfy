/** Filtering and de-duplicating sequences. */
module Sequences {

  /** The elements of `s` that satisfy `p`, in order. */
  function Keep<T>(s: seq<T>, p: T -> bool): (r: seq<T>)
    ensures |r| <= |s|
  {
    if s == [] then [] else
      var front := Keep(s[..|s| - 1], p);
      if p(s[|s| - 1]) then front + [s[|s| - 1]] else front
  }

  lemma KeepLast<T>(s: seq<T>, x: T, p: T -> bool)
    ensures Keep(s + [x], p) == if p(x) then Keep(s, p) + [x] else Keep(s, p)
  {
    assert (s + [x])[..|s + [x]| - 1] == s;
  }

  lemma {:induction false} KeepMembers<T>(s: seq<T>, p: T -> bool)
    ensures forall x :: x in Keep(s, p) ==> x in s && p(x)
    ensures forall x :: x in s && p(x) ==> x in Keep(s, p)
  {
    if s != [] {
      KeepMembers(s[..|s| - 1], p);
      assert s == s[..|s| - 1] + [s[|s| - 1]];
    }
  }

  lemma {:induction false} KeepNone<T>(s: seq<T>, p: T -> bool)
    requires forall x :: x in s ==> !p(x)
    ensures Keep(s, p) == []
  {
    if s != [] {
      KeepNone(s[..|s| - 1], p);
    }
  }

  lemma {:induction false} KeepAppend<T>(s: seq<T>, t: seq<T>, p: T -> bool)
    ensures Keep(s + t, p) == Keep(s, p) + Keep(t, p)
  {
    if t == [] {
      assert s + t == s;
    } else {
      KeepAppend(s, t[..|t| - 1], p);
      assert (s + t)[..|s + t| - 1] == s + t[..|t| - 1];
    }
  }

  /** A relation that holds between any two elements in order also holds after filtering. */
  ghost predicate Pairwise<T>(s: seq<T>, related: (T, T) -> bool) {
    forall i, j :: 0 <= i < j < |s| ==> related(s[i], s[j])
  }

  lemma {:induction false} KeepPairwise<T>(s: seq<T>, p: T -> bool, related: (T, T) -> bool)
    requires Pairwise(s, related)
    ensures Pairwise(Keep(s, p), related)
  {
    if s != [] {
      var front := s[..|s| - 1];
      KeepPairwise(front, p, related);
      KeepMembers(front, p);
      var kept := Keep(front, p);
      forall i | 0 <= i < |kept| ensures related(kept[i], s[|s| - 1]) {
        var x := kept[i];
        assert x in Keep(front, p);
        assert x in front;
        var j :| 0 <= j < |front| && front[j] == kept[i];
        assert related(s[j], s[|s| - 1]);
      }
    }
  }

  /** Deleting entries of a `Map` while a `for … of` loop walks over it. */
  method DeleteWhile<T>(s: seq<T>, keep: T -> bool) returns (r: seq<T>)
    ensures r == Keep(s, keep)
  {
    r := s;
    var k := 0;
    ghost var seen := 0;
    while k < |r|
      invariant 0 <= seen <= |s| && k <= |r|
      invariant r[..k] == Keep(s[..seen], keep) && r[k..] == s[seen..]
      decreases |r| - k
    {
      assert s[..seen + 1][..seen] == s[..seen] && r[k] == s[seen];
      assert r == r[..k] + [r[k]] + r[k + 1..] && r[k + 1..] == s[seen + 1..];
      if keep(r[k]) {
        k := k + 1;
      } else {
        r := r[..k] + r[k + 1..];
      }
      seen := seen + 1;
    }
    assert s[..seen] == s && r[..k] == r;
  }

  ghost predicate Has<T, K>(s: seq<T>, key: T -> K, k: K) {
    exists i :: 0 <= i < |s| && key(s[i]) == k
  }

  /** The first element for each key, in order. */
  ghost function FirstOfEach<T, K>(s: seq<T>, key: T -> K): seq<T> {
    if s == [] then [] else
      var front := s[..|s| - 1];
      FirstOfEach(front, key) + (if Has(front, key, key(s[|s| - 1])) then [] else [s[|s| - 1]])
  }

  lemma FirstOfEachAppend<T, K>(s: seq<T>, x: T, key: T -> K)
    ensures FirstOfEach(s + [x], key) == FirstOfEach(s, key) + (if Has(s, key, key(x)) then [] else [x])
  {
    assert (s + [x])[..|s + [x]| - 1] == s;
  }

  lemma {:induction false} FirstOfEachKeys<T, K>(s: seq<T>, key: T -> K, k: K)
    ensures Has(FirstOfEach(s, key), key, k) <==> Has(s, key, k)
  {
    if s != [] {
      var front, last := s[..|s| - 1], s[|s| - 1];
      FirstOfEachKeys(front, key, k);
      FirstOfEachKeys(front, key, key(last));
      HasAppend(front, [last], key, k);
      HasAppend(FirstOfEach(front, key), if Has(front, key, key(last)) then [] else [last], key, k);
      assert s == front + [last];
    }
  }

  lemma HasAppend<T, K>(s: seq<T>, t: seq<T>, key: T -> K, k: K)
    ensures Has(s + t, key, k) <==> Has(s, key, k) || Has(t, key, k)
  {
    if i :| 0 <= i < |s + t| && key((s + t)[i]) == k {
      assert if i < |s| then key(s[i]) == k else key(t[i - |s|]) == k;
    }
    if i :| 0 <= i < |s| && key(s[i]) == k {
      assert key((s + t)[i]) == k;
    }
    if i :| 0 <= i < |t| && key(t[i]) == k {
      assert key((s + t)[|s| + i]) == k;
    }
  }

  /** Every key that occurs is listed exactly once, and nothing else is listed. */
  lemma {:induction false} FirstOfEachIsDistinct<T, K>(s: seq<T>, key: T -> K)
    ensures var r := FirstOfEach(s, key); forall i, j :: 0 <= i < j < |r| ==> key(r[i]) != key(r[j])
    ensures forall x :: x in FirstOfEach(s, key) ==> x in s
  {
    if s != [] {
      var front, last := s[..|s| - 1], s[|s| - 1];
      FirstOfEachIsDistinct(front, key);
      FirstOfEachKeys(front, key, key(last));
      assert s == front + [last];
    }
  }

  ghost function SeenKeys<T, K>(s: seq<T>, key: T -> K): set<K> {
    set x | x in s :: key(x)
  }

  lemma KeysAreThere<T, K>(s: seq<T>, key: T -> K, k: K)
    ensures k in SeenKeys(s, key) <==> Has(s, key, k)
  {
    if k in SeenKeys(s, key) {
      var x :| x in s && key(x) == k;
      var i :| 0 <= i < |s| && s[i] == x;
      assert key(s[i]) == k;
    }
    if i :| 0 <= i < |s| && key(s[i]) == k {
      assert s[i] in s;
    }
  }

  lemma SeeOneMore<T, K>(items: seq<T>, i: nat, key: T -> K)
    requires i < |items|
    ensures SeenKeys(items[..i + 1], key) == SeenKeys(items[..i], key) + {key(items[i])}
    ensures FirstOfEach(items[..i + 1], key)
         == FirstOfEach(items[..i], key) + (if key(items[i]) in SeenKeys(items[..i], key) then [] else [items[i]])
  {
    hide Has; hide FirstOfEach;
    assert items[..i + 1] == items[..i] + [items[i]];
    FirstOfEachAppend(items[..i], items[i], key);
    KeysAreThere(items[..i], key, key(items[i]));
  }

  /** `filter` with a set of the keys seen so far. */
  method UniqueBy<T, K(==)>(items: seq<T>, key: T -> K) returns (r: seq<T>)
    ensures r == FirstOfEach(items, key)
  {
    r := [];
    var seen := {};
    for i := 0 to |items|
      invariant r == FirstOfEach(items[..i], key)
      invariant seen == SeenKeys(items[..i], key)
    {
      SeeOneMore(items, i, key);
      var value := key(items[i]);
      if value in seen {
        assert seen + {value} == seen && r + [] == r;
      } else {
        seen := seen + {value};
        r := r + [items[i]];
      }
    }
    assert items[..|items|] == items;
  }
}
