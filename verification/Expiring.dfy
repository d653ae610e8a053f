/** Insertion-ordered tables whose entries expire: the shape shared by the broker's late-answer
    tombstones and by the one-time token stores. A JavaScript `Map` is the sequence of its entries
    in insertion order. */
module Expiring {
  import opened Common
  import opened Sequences

  datatype Entry<+V> = Entry(key: Uuid, expiresAt: nat, value: V)

  /** Keys are distinct and expiry times never decrease along the table. */
  function KeyAndExpiryOrder<V>(): (Entry<V>, Entry<V>) -> bool {
    (a: Entry<V>, b: Entry<V>) => a.key != b.key && a.expiresAt <= b.expiresAt
  }

  ghost predicate InOrder<V>(s: seq<Entry<V>>) {
    Pairwise(s, KeyAndExpiryOrder())
  }

  lemma InOrderFacts<V>(s: seq<Entry<V>>)
    requires InOrder(s)
    ensures forall i, j :: 0 <= i < j < |s| ==> s[i].key != s[j].key && s[i].expiresAt <= s[j].expiresAt
  {
    forall i, j | 0 <= i < j < |s| ensures s[i].key != s[j].key && s[i].expiresAt <= s[j].expiresAt {
      assert KeyAndExpiryOrder<V>()(s[i], s[j]);
    }
  }

  ghost predicate HasKey<V>(s: seq<Entry<V>>, key: Uuid) {
    exists i :: 0 <= i < |s| && s[i].key == key
  }

  lemma AbsentKey<V>(s: seq<Entry<V>>, key: Uuid)
    requires forall x :: x in s ==> x.key != key
    ensures !HasKey(s, key)
  {
    forall i | 0 <= i < |s| ensures s[i].key != key {
      assert s[i] in s;
    }
  }

  lemma SubsetHasNoKey<V>(s: seq<Entry<V>>, t: seq<Entry<V>>, key: Uuid)
    requires !HasKey(s, key) && forall e :: e in t ==> e in s
    ensures !HasKey(t, key)
  {
    forall i | 0 <= i < |t| ensures t[i].key != key {
      assert t[i] in s;
    }
  }

  function IsLive<V>(now: nat): Entry<V> -> bool {
    (e: Entry<V>) => e.expiresAt > now
  }

  function OtherKey<V>(key: Uuid): Entry<V> -> bool {
    (e: Entry<V>) => e.key != key
  }

  function Live<V>(s: seq<Entry<V>>, now: nat): seq<Entry<V>> {
    Keep(s, IsLive(now))
  }

  function Without<V>(s: seq<Entry<V>>, key: Uuid): seq<Entry<V>> {
    Keep(s, OtherKey(key))
  }

  function Lookup<V>(s: seq<Entry<V>>, key: Uuid): (r: Option<Entry<V>>)
    ensures r.Some? ==> r.value in s && r.value.key == key
    ensures r.None? <==> !HasKey(s, key)
  {
    if s == [] then None
    else if s[0].key == key then Some(s[0])
    else
      var r := Lookup(s[1..], key);
      assert r.None? ==> forall i :: 0 <= i < |s| ==> (i > 0 ==> s[i] == s[1..][i - 1]);
      assert HasKey(s[1..], key) ==> HasKey(s, key) by {
        if i :| 0 <= i < |s[1..]| && s[1..][i].key == key { assert s[i + 1].key == key; }
      }
      r
  }

  /** The newest entries that leave room for one more under a cap. */
  function Room<V>(s: seq<Entry<V>>, cap: nat): seq<Entry<V>>
    requires cap >= 1
  {
    if |s| < cap then s else s[|s| - cap + 1..]
  }

  /** Insertion: expired entries go first, then the oldest while the table is full. */
  function Inserted<V>(s: seq<Entry<V>>, cap: nat, now: nat, e: Entry<V>): seq<Entry<V>>
    requires cap >= 1
  {
    Room(Live(s, now), cap) + [e]
  }

  /** The eviction loop that precedes every insertion. */
  method MakeRoom<V>(s: seq<Entry<V>>, cap: nat) returns (r: seq<Entry<V>>)
    requires cap >= 1
    ensures r == Room(s, cap)
  {
    r := s;
    while |r| >= cap
      invariant |r| <= |s| && r == s[|s| - |r|..]
      invariant if |s| < cap then r == s else |r| >= cap - 1
      decreases |r|
    {
      r := r[1..];
    }
  }

  lemma KeepInOrder<V>(s: seq<Entry<V>>, p: Entry<V> -> bool)
    requires InOrder(s)
    ensures InOrder(Keep(s, p))
  {
    KeepPairwise(s, p, KeyAndExpiryOrder());
  }

  /** Insertion keeps the table ordered and under its cap, provided that the new entry expires last. */
  lemma InsertedInOrder<V>(s: seq<Entry<V>>, cap: nat, now: nat, e: Entry<V>)
    requires cap >= 1 && InOrder(s) && !HasKey(s, e.key)
    requires forall x :: x in s ==> x.expiresAt <= e.expiresAt
    ensures InOrder(Inserted(s, cap, now, e)) && |Inserted(s, cap, now, e)| <= cap
    ensures forall x :: x in Inserted(s, cap, now, e) ==> x == e || (x in s && x.expiresAt > now)
  {
    KeepInOrder(s, IsLive(now));
    KeepMembers(s, IsLive(now));
    var kept := Room(Live(s, now), cap);
    forall i | 0 <= i < |kept| ensures KeyAndExpiryOrder<V>()(kept[i], e) {
      assert kept[i] in Live(s, now);
    }
  }

  /** Insertion evicts no more than it has to: while there is room everything live stays, and a full
      table stays full. What stays keeps its order. */
  lemma EvictsNoMore<V>(s: seq<Entry<V>>, cap: nat, now: nat, e: Entry<V>)
    requires cap >= 1
    ensures var live, r := Live(s, now), Inserted(s, cap, now, e);
      && |r| == (if |live| < cap then |live| + 1 else cap)
      && r == live[|live| - (|r| - 1)..] + [e]
  {
  }

  lemma LiveStays<V>(s: seq<Entry<V>>, cap: nat, now: nat, e: Entry<V>, x: Entry<V>)
    requires cap >= 1 && |s| < cap && x in s && x.expiresAt > now
    ensures x in Inserted(s, cap, now, e)
  {
    KeepMembers(s, IsLive(now));
  }

  lemma RoomEvictsEarliest<V>(s: seq<Entry<V>>, cap: nat, gone: Entry<V>, stays: Entry<V>)
    requires cap >= 1 && InOrder(s)
    requires gone in s && gone !in Room(s, cap) && stays in Room(s, cap)
    ensures gone.expiresAt <= stays.expiresAt
  {
    var kept := Room(s, cap);
    var first := |s| - |kept|;
    assert s == s[..first] + kept;
    var i :| 0 <= i < first && s[..first][i] == gone;
    var j :| 0 <= j < |kept| && kept[j] == stays;
    assert s[i] == gone && s[first + j] == stays;
    assert KeyAndExpiryOrder<V>()(s[i], s[first + j]);
  }

  /** What insertion drops had either expired or expires no later than everything that stays. */
  lemma EvictsEarliest<V>(s: seq<Entry<V>>, cap: nat, now: nat, e: Entry<V>, gone: Entry<V>, stays: Entry<V>)
    requires cap >= 1 && InOrder(s)
    requires forall x :: x in s ==> x.expiresAt <= e.expiresAt
    requires gone in s && gone !in Inserted(s, cap, now, e)
    requires stays in Inserted(s, cap, now, e)
    ensures gone.expiresAt <= now || gone.expiresAt <= stays.expiresAt
  {
    KeepMembers(s, IsLive(now));
    KeepInOrder(s, IsLive(now));
    if gone in Live(s, now) && stays != e {
      RoomEvictsEarliest(Live(s, now), cap, gone, stays);
    }
  }

  /** In an ordered table a key identifies one entry. */
  lemma LookupUnique<V>(s: seq<Entry<V>>, e: Entry<V>)
    requires InOrder(s) && e in s
    ensures Lookup(s, e.key) == Some(e)
  {
    var i :| 0 <= i < |s| && s[i] == e;
    var r := Lookup(s, e.key);
    var j :| 0 <= j < |s| && s[j] == r.value;
    InOrderFacts(s);
  }
}
