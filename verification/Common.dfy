/** Vocabulary shared by every component of the model. */
module Common {

  datatype Option<+T> = None | Some(value: T)

  /** A value drawn by `randomUUID` or `createSecret`. The program compares such values for
      equality and never looks inside them. */
  type Uuid = nat

  datatype ErrorCode =
    | AmbiguousTarget
    | BrowserDisconnected
    | BrowserError
    | Cancelled
    | ConcurrencyLimit
    | InvalidMessage
    | NotFound
    | RegistrationConflict
    | RegistrationLimit
    | TimedOut

  datatype Result<+T> = Ok(value: T) | Err(error: ErrorCode)

  /** Which of the three kinds of capability a registration, an invocation or a result is. */
  datatype Kind = Tool | Resource | Prompt
}

/** Sums over finite maps, the yardstick for every running total in the program. */
module Totals {

  ghost function Sum<K>(m: map<K, nat>): nat
  {
    if m == map[] then 0 else
      var k :| k in m;
      m[k] + Sum(m - {k})
  }

  /** The order in which a total is taken does not matter: any key may be split off. */
  lemma {:induction false} SumSplit<K>(m: map<K, nat>, k: K)
    requires k in m
    ensures Sum(m) == m[k] + Sum(m - {k})
    decreases |m|
  {
    var first :| first in m && Sum(m) == m[first] + Sum(m - {first});
    if first != k {
      SumSplit(m - {first}, k);
      SumSplit(m - {k}, first);
      assert m - {first} - {k} == m - {k} - {first};
    }
  }

  lemma SumInsert<K>(m: map<K, nat>, k: K, v: nat)
    requires k !in m
    ensures Sum(m[k := v]) == Sum(m) + v
  {
    SumSplit(m[k := v], k);
    assert m[k := v] - {k} == m;
  }

  lemma SumUpdate<K>(m: map<K, nat>, k: K, v: nat)
    requires k in m
    ensures Sum(m[k := v]) + m[k] == Sum(m) + v
  {
    SumSplit(m, k);
    SumSplit(m[k := v], k);
    assert m[k := v] - {k} == m - {k};
  }

  lemma {:induction false} SumOfPart<K>(part: map<K, nat>, whole: map<K, nat>)
    requires part.Keys <= whole.Keys && forall k :: k in part ==> part[k] == whole[k]
    ensures Sum(part) <= Sum(whole)
    decreases |part|
  {
    if part != map[] {
      var k :| k in part;
      SumSplit(part, k);
      SumSplit(whole, k);
      SumOfPart(part - {k}, whole - {k});
    }
  }

  /** `reduce` over the values of a map. */
  method SumOfValues<K(==)>(m: map<K, nat>) returns (total: nat)
    ensures total == Sum(m)
  {
    total := 0;
    var rest := m;
    while rest != map[]
      invariant total + Sum(rest) == Sum(m)
      decreases |rest|
    {
      var k :| k in rest;
      SumSplit(rest, k);
      total := total + rest[k];
      rest := rest - {k};
    }
  }
}
