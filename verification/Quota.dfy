/** The quota of the site's browser storage: what is written, what has to go, and what is left. */
module QuotaModel {
  import opened Common
  import opened Sequences
  import opened Sorting
  import opened Totals

  const MAX_KEY_LENGTH := 120
  const MAX_VALUE_BYTES := 32 * 1024
  const MAX_ENTRIES := 64
  const MAX_TOTAL_BYTES := 256 * 1024
  const MAX_SCAN_ENTRIES := 256
  const MAX_SCAN_BYTES := 512 * 1024

  // ----- Text as JavaScript has it: UTF-16 code units -----

  type CodeUnit = n: nat | n < 0x10000
  type Text = seq<CodeUnit>

  /** The length of a text in UTF-8. A surrogate without its partner is written as U+FFFD. */
  function Utf8Size(t: Text): nat {
    if t == [] then 0
    else if t[0] < 0x80 then 1 + Utf8Size(t[1..])
    else if t[0] < 0x800 then 2 + Utf8Size(t[1..])
    else if 0xD800 <= t[0] < 0xDC00 && |t| > 1 && 0xDC00 <= t[1] < 0xE000 then 4 + Utf8Size(t[2..])
    else 3 + Utf8Size(t[1..])
  }

  lemma {:induction false} Utf8AtMostThree(t: Text)
    ensures Utf8Size(t) <= 3 * |t|
  {
    if t != [] {
      Utf8AtMostThree(t[1..]);
      if |t| > 1 {
        Utf8AtMostThree(t[2..]);
      }
    }
  }

  predicate HighSurrogate(u: CodeUnit) {
    0xD800 <= u < 0xDC00
  }

  predicate LowSurrogate(u: CodeUnit) {
    0xDC00 <= u < 0xE000
  }

  /** The size of a text is that of its parts, wherever it is cut, except between the two halves of a
      surrogate pair. */
  lemma {:induction false} Utf8OfParts(s: Text, t: Text)
    requires s != [] && t != [] ==> !(HighSurrogate(s[|s| - 1]) && LowSurrogate(t[0]))
    ensures Utf8Size(s + t) == Utf8Size(s) + Utf8Size(t)
    decreases |s|
  {
    if s == [] {
      assert s + t == t;
    } else {
      assert (s + t)[0] == s[0];
      if |s| > 1 && HighSurrogate(s[0]) && LowSurrogate(s[1]) {
        assert (s + t)[1] == s[1] && (s + t)[2..] == s[2..] + t;
        assert |s| > 2 ==> s[2..][|s[2..]| - 1] == s[|s| - 1];
        Utf8OfParts(s[2..], t);
      } else {
        assert (s + t)[1..] == s[1..] + t;
        assert |s| > 1 ==> s[1..][|s[1..]| - 1] == s[|s| - 1];
        Utf8OfParts(s[1..], t);
      }
    }
  }

  /** One to three bytes for a code unit by itself, four for a surrogate pair. */
  lemma Utf8OfUnits(u: CodeUnit, v: CodeUnit)
    ensures Utf8Size([u]) == if u < 0x80 then 1 else if u < 0x800 then 2 else 3
    ensures HighSurrogate(u) && LowSurrogate(v) ==> Utf8Size([u, v]) == 4
  {
    assert [u][1..] == [] && [u, v][2..] == [] && [u, v][1..] == [v] && [v][1..] == [];
  }

  /** Letters and digits; ignoring case in Unicode also lets in U+017F and U+212A. */
  predicate KeyStart(u: CodeUnit) {
    0x30 <= u <= 0x39 || 0x41 <= u <= 0x5A || 0x61 <= u <= 0x7A || u == 0x17F || u == 0x212A
  }

  predicate KeyUnit(u: CodeUnit) {
    KeyStart(u) || u == 0x2E || u == 0x5F || u == 0x3A || u == 0x2F || u == 0x2D
  }

  predicate ValidKey(key: Text) {
    1 <= |key| <= MAX_KEY_LENGTH && KeyStart(key[0]) && forall i :: 0 <= i < |key| ==> KeyUnit(key[i])
  }

  // ----- Entries and records -----

  /** `value` is the JSON text of the stored value. */
  datatype Stored = Stored(key: Text, value: Text, updatedAt: Text, bytes: nat)

  datatype PrimaryKey = TextKey(text: Text) | OtherKey(n: nat)

  /** `rawSize` is the size of the record's JSON text, absent when it has none. `content` is absent
      when the record has the wrong shape, a forbidden key or value, or a malformed timestamp. */
  datatype Record = Record(rawSize: Option<nat>, content: Option<Stored>)

  type Store = map<PrimaryKey, Record>

  function StoredBytes(key: Text, value: Text): nat {
    Utf8Size(key) + Utf8Size(value) + 64
  }

  predicate ValidEntry(e: Stored) {
    ValidKey(e.key) && Utf8Size(e.value) <= MAX_VALUE_BYTES && e.bytes == StoredBytes(e.key, e.value)
  }

  /** A record that a scan keeps. */
  predicate Sound(k: PrimaryKey, r: Record) {
    r.content.Some? && ValidEntry(r.content.value) && k == TextKey(r.content.value.key)
  }

  function Cleaned(store: Store): Store {
    map k | k in store && Sound(k, store[k]) :: store[k]
  }

  function ScanSize(r: Record): nat {
    if r.rawSize.Some? then r.rawSize.value else MAX_SCAN_BYTES + 1
  }

  function ScanSizes(store: Store): map<PrimaryKey, nat> {
    map k | k in store :: ScanSize(store[k])
  }

  ghost predicate Oversized(store: Store) {
    |store| > MAX_SCAN_ENTRIES || Sum(ScanSizes(store)) > MAX_SCAN_BYTES
  }

  /** The order in which a cursor visits a store. */
  ghost predicate Walks(cursor: seq<PrimaryKey>, store: Store) {
    && (forall i, j :: 0 <= i < j < |cursor| ==> cursor[i] != cursor[j])
    && (forall k :: k in cursor <==> k in store)
  }

  // ----- Entries and what they take -----

  function TotalBytes(s: seq<Stored>): nat {
    if s == [] then 0 else s[0].bytes + TotalBytes(s[1..])
  }

  predicate Fits(s: seq<Stored>) {
    |s| <= MAX_ENTRIES && TotalBytes(s) <= MAX_TOTAL_BYTES
  }

  /** Oldest first, keys second, each as `localeCompare` orders them. */
  function ByAge(compareText: (Text, Text) -> int): (Stored, Stored) -> int {
    (a: Stored, b: Stored) =>
      if compareText(a.updatedAt, b.updatedAt) != 0 then compareText(a.updatedAt, b.updatedAt)
      else compareText(a.key, b.key)
  }

  lemma BothWays(a: Text, b: Text, compareText: (Text, Text) -> int)
    requires Preorder(compareText)
    ensures compareText(a, b) < 0 <==> compareText(b, a) > 0
    ensures compareText(a, b) > 0 <==> compareText(b, a) < 0
  {
  }

  lemma ByAgeIsPreorder(compareText: (Text, Text) -> int)
    requires Preorder(compareText)
    ensures Preorder(ByAge(compareText))
  {
    var cmp := ByAge(compareText);
    forall a, b ensures cmp(a, b) < 0 ==> cmp(b, a) > 0 {
      BothWays(a.updatedAt, b.updatedAt, compareText);
      BothWays(a.key, b.key, compareText);
    }
    forall a, b ensures cmp(a, b) > 0 ==> cmp(b, a) < 0 {
      BothWays(a.updatedAt, b.updatedAt, compareText);
      BothWays(a.key, b.key, compareText);
    }
    forall a, b, c | cmp(a, b) <= 0 && cmp(b, c) <= 0 ensures cmp(a, c) <= 0 {
      if compareText(a.updatedAt, b.updatedAt) < 0 || compareText(b.updatedAt, c.updatedAt) < 0 {
        StrictlyBefore(a.updatedAt, b.updatedAt, c.updatedAt, compareText);
      }
    }
  }

  /** How many of the oldest entries have to go so that the rest and the new entry fit. */
  function EvictionCount(s: seq<Stored>, e: Stored): (n: nat)
    ensures n <= |s|
  {
    if s == [] || Fits(s + [e]) then 0 else 1 + EvictionCount(s[1..], e)
  }

  lemma {:induction false} TotalBytesAppend(s: seq<Stored>, e: Stored)
    ensures TotalBytes(s + [e]) == TotalBytes(s) + e.bytes
  {
    if s == [] {
      assert s + [e] == [e];
    } else {
      assert (s + [e])[1..] == s[1..] + [e];
      TotalBytesAppend(s[1..], e);
    }
  }

  lemma {:induction false} FewerFit(s: seq<Stored>, e: Stored, m: nat)
    requires m <= |s| && Fits(s + [e])
    ensures Fits(s[m..] + [e])
  {
    if m == 0 {
      assert s[0..] == s;
    } else {
      TotalBytesAppend(s, e);
      TotalBytesAppend(s[1..], e);
      FewerFit(s[1..], e, m - 1);
      assert s[1..][m - 1..] == s[m..];
    }
  }

  /** Evicting exactly this many, and no fewer, makes room; evicting more would also do. */
  lemma {:induction false} EvictsTheShortestPrefix(s: seq<Stored>, e: Stored, m: nat)
    requires e.bytes <= MAX_TOTAL_BYTES && m <= |s|
    ensures Fits(s[m..] + [e]) <==> m >= EvictionCount(s, e)
  {
    if s == [] {
      TotalBytesAppend(s, e);
      assert s[m..] + [e] == s + [e];
    } else if Fits(s + [e]) {
      FewerFit(s, e, m);
    } else if m == 0 {
      assert s[0..] == s;
    } else {
      EvictsTheShortestPrefix(s[1..], e, m - 1);
      assert s[1..][m - 1..] == s[m..];
    }
  }

  /** A new entry alone is far below the quota: keys take at most three bytes per unit. */
  lemma EntryFitsAlone(e: Stored)
    requires ValidEntry(e)
    ensures e.bytes <= 3 * MAX_KEY_LENGTH + MAX_VALUE_BYTES + 64 <= MAX_TOTAL_BYTES && Fits([e])
  {
    Utf8AtMostThree(e.key);
  }

  // ----- A store and the entries in it -----

  function OtherThan(key: Text): Stored -> bool {
    (e: Stored) => e.key != key
  }

  function DifferentKeys(): (Stored, Stored) -> bool {
    (a: Stored, b: Stored) => a.key != b.key
  }

  function KeysOf(s: seq<Stored>): set<PrimaryKey> {
    set e | e in s :: TextKey(e.key)
  }

  /** `s` lists the entries of a store, each once. */
  ghost predicate Lists(s: seq<Stored>, store: Store) {
    && Pairwise(s, DifferentKeys())
    && store.Keys == KeysOf(s)
    && forall e :: e in s ==> TextKey(e.key) in store && store[TextKey(e.key)].content == Some(e)
  }

  function SizesOf(store: Store): map<PrimaryKey, nat> {
    map k | k in store :: if store[k].content.Some? then store[k].content.value.bytes else 0
  }

  lemma DifferentTail(s: seq<Stored>)
    requires s != [] && Pairwise(s, DifferentKeys())
    ensures Pairwise(s[1..], DifferentKeys())
    ensures KeysOf(s) == KeysOf(s[1..]) + {TextKey(s[0].key)} && TextKey(s[0].key) !in KeysOf(s[1..])
    ensures forall e :: e in s[1..] ==> e in s && e.key != s[0].key
  {
    var rest := s[1..];
    assert s == [s[0]] + rest;
    forall i | 0 <= i < |rest| ensures rest[i].key != s[0].key {
      assert DifferentKeys()(s[0], s[i + 1]);
    }
    forall i, j | 0 <= i < j < |rest| ensures DifferentKeys()(rest[i], rest[j]) {
      assert DifferentKeys()(s[i + 1], s[j + 1]);
    }
  }

  lemma ListsTail(s: seq<Stored>, store: Store)
    requires s != [] && Lists(s, store)
    ensures Lists(s[1..], store - {TextKey(s[0].key)})
    ensures TextKey(s[0].key) in store && SizesOf(store)[TextKey(s[0].key)] == s[0].bytes
  {
    hide Pairwise; hide DifferentKeys; hide KeysOf;
    DifferentTail(s);
    assert s[0] in s;
  }

  /** The usage reported for a list is the usage of the store. */
  lemma {:induction false} UsageIsReal(s: seq<Stored>, store: Store)
    requires Lists(s, store)
    ensures |s| == |store| && TotalBytes(s) == Sum(SizesOf(store))
    decreases |s|
  {
    hide Sum; hide Lists;
    if s == [] {
      ListsNothing(store);
    } else {
      var k := TextKey(s[0].key);
      ListsTail(s, store);
      UsageIsReal(s[1..], store - {k});
      assert |store| == |store - {k}| + 1;
      SumSplit(SizesOf(store), k);
      assert SizesOf(store) - {k} == SizesOf(store - {k});
    }
  }

  lemma ListsNothing(store: Store)
    requires Lists([], store)
    ensures |store| == 0 && Sum(SizesOf(store)) == 0
  {
    assert KeysOf([]) == {};
    assert store == map[];
    NothingStored(store);
  }

  lemma NothingStored(store: Store)
    requires store == map[]
    ensures Sum(SizesOf(store)) == 0
  {
    assert SizesOf(store) == map[];
  }

  lemma DifferentAppend(s: seq<Stored>, x: Stored)
    requires Pairwise(s, DifferentKeys()) && forall y :: y in s ==> y.key != x.key
    ensures Pairwise(s + [x], DifferentKeys())
  {
    var r := s + [x];
    forall i, j | 0 <= i < j < |r| ensures DifferentKeys()(r[i], r[j]) {
      if j == |s| {
        assert s[i] in s;
      } else {
        assert DifferentKeys()(s[i], s[j]);
      }
    }
  }

  lemma DifferentFront(s: seq<Stored>)
    requires s != [] && Pairwise(s, DifferentKeys())
    ensures Pairwise(s[..|s| - 1], DifferentKeys())
    ensures forall y :: y in s[..|s| - 1] ==> y in s && y.key != s[|s| - 1].key
  {
    var front := s[..|s| - 1];
    assert s == front + [s[|s| - 1]];
    forall i | 0 <= i < |front| ensures front[i].key != s[|s| - 1].key {
      assert DifferentKeys()(s[i], s[|s| - 1]);
    }
    forall i, j | 0 <= i < j < |front| ensures DifferentKeys()(front[i], front[j]) {
      assert DifferentKeys()(s[i], s[j]);
    }
  }

  lemma {:induction false} InsertKeepsDifferent(s: seq<Stored>, x: Stored, cmp: (Stored, Stored) -> int)
    requires Pairwise(s, DifferentKeys()) && forall y :: y in s ==> y.key != x.key
    ensures Pairwise(Insert(s, x, cmp), DifferentKeys())
  {
    hide Pairwise; hide DifferentKeys;
    if s == [] || cmp(s[|s| - 1], x) <= 0 {
      DifferentAppend(s, x);
    } else {
      var front, last := s[..|s| - 1], s[|s| - 1];
      DifferentFront(s);
      InsertKeepsDifferent(front, x, cmp);
      SameElements(Insert(front, x, cmp), front + [x]) by {
        InsertElements(front, x, cmp);
      }
      assert last in s;
      DifferentAppend(Insert(front, x, cmp), last);
    }
  }

  lemma SameElements<T>(s: seq<T>, t: seq<T>)
    requires multiset(s) == multiset(t)
    ensures forall y :: y in s <==> y in t
  {
    assert forall y :: y in s <==> y in multiset(s);
    assert forall y :: y in t <==> y in multiset(t);
  }

  lemma {:induction false} SortKeepsDifferent(s: seq<Stored>, cmp: (Stored, Stored) -> int)
    requires Pairwise(s, DifferentKeys())
    ensures Pairwise(Sort(s, cmp), DifferentKeys())
  {
    hide Pairwise; hide DifferentKeys;
    if s != [] {
      var front := s[..|s| - 1];
      DifferentFront(s);
      SortKeepsDifferent(front, cmp);
      SameElements(Sort(front, cmp), front) by {
        SortElements(front, cmp);
      }
      InsertKeepsDifferent(Sort(front, cmp), s[|s| - 1], cmp);
    }
  }

  lemma SortedLists(s: seq<Stored>, store: Store, cmp: (Stored, Stored) -> int)
    requires Lists(s, store)
    ensures Lists(Sort(s, cmp), store)
  {
    SortKeepsDifferent(s, cmp);
    SortElements(s, cmp);
    SameElements(Sort(s, cmp), s);
  }

  /** Dropping the entry that is about to be replaced. */
  lemma OthersLists(s: seq<Stored>, store: Store, key: Text)
    requires Lists(s, store)
    ensures Lists(Keep(s, OtherThan(key)), store - {TextKey(key)})
    ensures forall e :: e in Keep(s, OtherThan(key)) ==> e.key != key
  {
    hide Pairwise; hide DifferentKeys; hide KeysOf;
    KeepPairwise(s, OtherThan(key), DifferentKeys());
    KeepMembers(s, OtherThan(key));
    OtherKeys(s, key);
  }

  lemma OtherKeys(s: seq<Stored>, key: Text)
    ensures KeysOf(Keep(s, OtherThan(key))) == KeysOf(s) - {TextKey(key)}
  {
    KeepMembers(s, OtherThan(key));
    forall k | k in KeysOf(s) && k != TextKey(key) ensures k in KeysOf(Keep(s, OtherThan(key))) {
      var e :| e in s && TextKey(e.key) == k;
      assert OtherThan(key)(e);
    }
  }

  lemma ListsAppend(s: seq<Stored>, store: Store, e: Stored, r: Record)
    requires Lists(s, store) && TextKey(e.key) !in store && r.content == Some(e)
    ensures Lists(s + [e], store[TextKey(e.key) := r])
  {
    hide Pairwise; hide DifferentKeys;
    forall y | y in s ensures y.key != e.key {
      assert TextKey(y.key) in KeysOf(s);
    }
    DifferentAppend(s, e);
    assert KeysOf(s + [e]) == KeysOf(s) + {TextKey(e.key)};
  }

  // ----- Records that the program itself has written -----

  function Digits(n: nat): nat {
    if n < 10 then 1 else 1 + Digits(n / 10)
  }

  /** The size of `{"key":"…","value":…,"updatedAt":"…","bytes":…}`. */
  function JsonSize(e: Stored): nat {
    43 + Utf8Size(e.key) + Utf8Size(e.value) + |e.updatedAt| + Digits(e.bytes)
  }

  function RecordOf(e: Stored): Record {
    Record(Some(JsonSize(e)), Some(e))
  }

  /** A store that only this program has written to. Timestamps have at most 27 characters. */
  ghost predicate Own(store: Store) {
    && |store| <= MAX_ENTRIES && Sum(SizesOf(store)) <= MAX_TOTAL_BYTES
    && forall k :: k in store ==> OwnRecord(k, store[k])
  }

  predicate OwnRecord(k: PrimaryKey, r: Record) {
    Sound(k, r) && |r.content.value.updatedAt| <= 27 && r == RecordOf(r.content.value)
  }

  lemma RecordIsLittleLarger(e: Stored)
    requires ValidEntry(e) && |e.updatedAt| <= 27
    ensures JsonSize(e) <= e.bytes + 11
  {
    hide Utf8Size;
    EntryFitsAlone(e);
    FiveDigits(e.bytes);
  }

  lemma FiveDigits(n: nat)
    requires n < 100000
    ensures Digits(n) <= 5
  {
    var tens, hundreds, thousands := n / 10, n / 10 / 10, n / 10 / 10 / 10;
    assert Digits(thousands / 10) == 1 && Digits(thousands) <= 2;
    assert Digits(hundreds) <= 3;
    assert Digits(tens) <= 4;
  }

  lemma {:induction false} SumWithin(sizes: map<PrimaryKey, nat>, raw: map<PrimaryKey, nat>)
    requires raw.Keys == sizes.Keys && forall k :: k in raw ==> raw[k] <= sizes[k] + 11
    ensures Sum(raw) <= Sum(sizes) + 11 * |raw|
    decreases |raw|
  {
    hide Sum;
    if raw == map[] {
      EmptySums();
    } else {
      var k :| k in raw;
      SumSplit(raw, k);
      SumSplit(sizes, k);
      assert |raw| == |raw - {k}| + 1;
      SumWithin(sizes - {k}, raw - {k});
    }
  }

  lemma EmptySums()
    ensures Sum<PrimaryKey>(map[]) == 0
  {
  }

  /** A scan of such a store never trips the safety bound and never throws anything away. */
  lemma OwnStoreIsNeverCleared(store: Store)
    requires Own(store)
    ensures !Oversized(store) && Cleaned(store) == store
  {
    hide Sum; hide ValidEntry; hide JsonSize;
    forall k | k in store ensures ScanSizes(store)[k] <= SizesOf(store)[k] + 11 {
      RecordIsLittleLarger(store[k].content.value);
    }
    SumWithin(SizesOf(store), ScanSizes(store));
    assert |ScanSizes(store)| == |store| by { assert ScanSizes(store).Keys == store.Keys; }
  }
}
