/** Three-way comparisons and their lexicographic lifting. */
module Orders {

  /** Negative, zero or positive, as comparison callbacks answer. */
  ghost predicate TotalOrder<T(!new)>(cmp: (T, T) -> int) {
    && (forall a, b :: cmp(a, b) == 0 ==> a == b)
    && (forall a :: cmp(a, a) == 0)
    && (forall a, b :: cmp(a, b) < 0 ==> cmp(b, a) > 0)
    && (forall a, b :: cmp(a, b) > 0 ==> cmp(b, a) < 0)
    && (forall a, b, c :: cmp(a, b) < 0 && cmp(b, c) < 0 ==> cmp(a, c) < 0)
  }

  /** Element by element; a proper prefix comes first. */
  function Lex<T>(a: seq<T>, b: seq<T>, cmp: (T, T) -> int): int {
    if a == [] || b == [] then (if |a| == |b| then 0 else if |a| < |b| then -1 else 1)
    else if cmp(a[0], b[0]) != 0 then cmp(a[0], b[0])
    else Lex(a[1..], b[1..], cmp)
  }

  lemma {:induction false} LexFlip<T(!new)>(a: seq<T>, b: seq<T>, cmp: (T, T) -> int)
    requires TotalOrder(cmp)
    ensures Lex(a, b, cmp) < 0 ==> Lex(b, a, cmp) > 0
    ensures Lex(a, b, cmp) > 0 ==> Lex(b, a, cmp) < 0
    ensures Lex(a, b, cmp) == 0 <==> a == b
  {
    if a != [] && b != [] {
      LexFlip(a[1..], b[1..], cmp);
      assert a == [a[0]] + a[1..] && b == [b[0]] + b[1..];
    }
  }

  lemma {:induction false} LexTransitive<T(!new)>(a: seq<T>, b: seq<T>, c: seq<T>, cmp: (T, T) -> int)
    requires TotalOrder(cmp) && Lex(a, b, cmp) < 0 && Lex(b, c, cmp) < 0
    ensures Lex(a, c, cmp) < 0
  {
    if a != [] && b != [] && c != [] {
      if cmp(a[0], b[0]) == 0 && cmp(b[0], c[0]) == 0 {
        LexTransitive(a[1..], b[1..], c[1..], cmp);
      }
    }
  }

  /** The place where a lexicographic comparison is decided. */
  ghost predicate DecidedAt<T>(a: seq<T>, b: seq<T>, cmp: (T, T) -> int, k: int) {
    && 0 <= k <= |a| && k < |b| && a[..k] == b[..k]
    && (k == |a| || cmp(a[k], b[k]) < 0)
  }

  lemma {:induction false} LexDecided<T(!new)>(a: seq<T>, b: seq<T>, cmp: (T, T) -> int)
    requires TotalOrder(cmp)
    ensures Lex(a, b, cmp) < 0 <==> exists k :: DecidedAt(a, b, cmp, k)
  {
    if a == [] || b == [] {
      if a == [] && b != [] {
        assert DecidedAt(a, b, cmp, 0);
      }
    } else {
      LexDecided(a[1..], b[1..], cmp);
      if Lex(a, b, cmp) < 0 {
        if cmp(a[0], b[0]) < 0 {
          assert DecidedAt(a, b, cmp, 0);
        } else {
          var k :| DecidedAt(a[1..], b[1..], cmp, k);
          assert a[..k + 1] == [a[0]] + a[1..][..k] && b[..k + 1] == [b[0]] + b[1..][..k];
          assert DecidedAt(a, b, cmp, k + 1);
        }
      }
      if k :| DecidedAt(a, b, cmp, k) {
        if k > 0 {
          assert a[0] == a[..k][0] == b[..k][0] == b[0];
          assert a[1..][..k - 1] == a[..k][1..] && b[1..][..k - 1] == b[..k][1..];
          assert DecidedAt(a[1..], b[1..], cmp, k - 1);
        }
      }
    }
  }

  /** For texts of equal length, one more element matters only if all before are equal. */
  lemma {:induction false} LexSnoc<T>(a: seq<T>, b: seq<T>, x: T, y: T, cmp: (T, T) -> int)
    requires |a| == |b|
    ensures Lex(a + [x], b + [y], cmp) == if Lex(a, b, cmp) != 0 then Lex(a, b, cmp) else cmp(x, y)
  {
    if a == [] {
      assert a + [x] == [x] && b + [y] == [y];
      assert [x][1..] == [] && [y][1..] == [];
    } else {
      assert (a + [x])[1..] == a[1..] + [x] && (b + [y])[1..] == b[1..] + [y];
      LexSnoc(a[1..], b[1..], x, y, cmp);
    }
  }
}
