/** The site's storage tool: scanning the store and writing one value under the quota. */
module SafeValues {
  import opened Common
  import opened Sequences
  import opened Sorting
  import opened Totals
  import opened QuotaModel

  datatype Usage = Usage(entries: nat, totalBytes: nat)

  datatype PutResult =
    | Refused
    | ScanFailed
    | Aborted
    | Written(entry: Stored, evictedKeys: seq<Text>, usage: Usage)

  function EvictedKeys(s: seq<Stored>): seq<Text> {
    seq(|s|, i requires 0 <= i < |s| => s[i].key)
  }

  // ----- One step of a scan -----

  /** A store in which the records of `done` have been dealt with. */
  function Swept(store: Store, done: set<PrimaryKey>): Store {
    map k | k in store && (k in done ==> Sound(k, store[k])) :: store[k]
  }

  function Visited(store: Store, done: set<PrimaryKey>): Store {
    map k | k in store && k in done :: store[k]
  }

  ghost predicate Scanned(store: Store, done: set<PrimaryKey>, scannedBytes: nat, entries: seq<Stored>) {
    && |Visited(store, done)| == |done|
    && scannedBytes == Sum(ScanSizes(Visited(store, done)))
    && Lists(entries, Cleaned(Visited(store, done)))
  }

  lemma NothingScanned(store: Store)
    ensures Scanned(store, {}, 0, []) && Swept(store, {}) == store
  {
    var none := Visited(store, {});
    assert none == map[] && ScanSizes(none) == map[] && Cleaned(none) == map[];
    assert KeysOf([]) == {};
  }

  lemma ScanOne(store: Store, done: set<PrimaryKey>, scannedBytes: nat, entries: seq<Stored>, k: PrimaryKey)
    requires Scanned(store, done, scannedBytes, entries) && k in store && k !in done
    ensures var r := store[k];
      Scanned(store, done + {k}, scannedBytes + ScanSize(r), if Sound(k, r) then entries + [r.content.value] else entries)
    ensures Swept(store, done + {k}) == if Sound(k, store[k]) then Swept(store, done) else Swept(store, done) - {k}
  {
    hide Sum; hide Lists; hide ScanSize; hide Sound; hide Cleaned; hide Visited; hide Swept;
    var before, r := Visited(store, done), store[k];
    VisitOne(store, done, k);
    SumInsert(ScanSizes(before), k, ScanSize(r));
    CleanOne(before, entries, k, r);
  }

  lemma VisitOne(store: Store, done: set<PrimaryKey>, k: PrimaryKey)
    requires k in store && k !in done
    ensures Visited(store, done + {k}) == Visited(store, done)[k := store[k]] && k !in Visited(store, done)
    ensures ScanSizes(Visited(store, done + {k})) == ScanSizes(Visited(store, done))[k := ScanSize(store[k])]
    ensures Swept(store, done + {k}) == if Sound(k, store[k]) then Swept(store, done) else Swept(store, done) - {k}
  {
    hide ScanSize; hide Sound;
  }

  lemma CleanOne(before: Store, entries: seq<Stored>, k: PrimaryKey, r: Record)
    requires Lists(entries, Cleaned(before)) && k !in before
    ensures Lists(if Sound(k, r) then entries + [r.content.value] else entries, Cleaned(before[k := r]))
  {
    hide Lists; hide ValidEntry;
    if Sound(k, r) {
      assert Cleaned(before[k := r]) == Cleaned(before)[k := r];
      ListsAppend(entries, Cleaned(before), r.content.value, r);
    } else {
      assert Cleaned(before[k := r]) == Cleaned(before);
    }
  }

  /** A scan that has gone too far already proves that the whole store is too large. */
  lemma TooFar(store: Store, done: set<PrimaryKey>, scannedBytes: nat, entries: seq<Stored>)
    requires Scanned(store, done, scannedBytes, entries)
    requires |done| > MAX_SCAN_ENTRIES || scannedBytes > MAX_SCAN_BYTES
    ensures Oversized(store)
  {
    hide Sum; hide Lists; hide ScanSize;
    var part := Visited(store, done);
    SumOfPart(ScanSizes(part), ScanSizes(store));
    assert part.Keys <= store.Keys;
    assert store.Keys == part.Keys + (store.Keys - part.Keys);
  }

  lemma AllScanned(store: Store, scannedBytes: nat, entries: seq<Stored>)
    requires Scanned(store, store.Keys, scannedBytes, entries)
    requires |store.Keys| <= MAX_SCAN_ENTRIES && scannedBytes <= MAX_SCAN_BYTES
    ensures !Oversized(store) && Lists(entries, Cleaned(store)) && Swept(store, store.Keys) == Cleaned(store)
  {
    hide Sum; hide Lists; hide ScanSize; hide ValidEntry;
    assert Visited(store, store.Keys) == store;
  }

  /** The records that a cursor has visited before its `i`th step. */
  ghost function Reached(cursor: seq<PrimaryKey>, i: nat): set<PrimaryKey>
    requires i <= |cursor|
  {
    set k | k in cursor[..i]
  }

  lemma NothingReached(cursor: seq<PrimaryKey>)
    ensures Reached(cursor, 0) == {}
  {
  }

  lemma NewAt(cursor: seq<PrimaryKey>, store: Store, i: nat)
    requires Walks(cursor, store) && i < |cursor|
    ensures cursor[i] in store && cursor[i] !in Reached(cursor, i)
  {
    assert cursor[i] in cursor;
    forall j | 0 <= j < i ensures cursor[..i][j] != cursor[i] {
    }
  }

  lemma {:induction false} ReachOne(cursor: seq<PrimaryKey>, store: Store, i: nat)
    requires Walks(cursor, store) && i < |cursor|
    ensures cursor[i] in store && cursor[i] !in Reached(cursor, i)
    ensures Reached(cursor, i + 1) == Reached(cursor, i) + {cursor[i]}
    ensures |Reached(cursor, i + 1)| == i + 1
    decreases i
  {
    hide Walks;
    NewAt(cursor, store, i);
    assert cursor[..i + 1] == cursor[..i] + [cursor[i]];
    if i > 0 {
      ReachOne(cursor, store, i - 1);
    } else {
      assert Reached(cursor, 0) == {};
    }
  }

  lemma EverythingReached(cursor: seq<PrimaryKey>, store: Store)
    requires Walks(cursor, store)
    ensures Reached(cursor, |cursor|) == store.Keys
  {
    assert cursor[..|cursor|] == cursor;
  }

  lemma AllReached(cursor: seq<PrimaryKey>, store: Store)
    requires Walks(cursor, store)
    ensures Reached(cursor, |cursor|) == store.Keys && |store.Keys| == |cursor|
  {
    hide Walks; hide Reached;
    EverythingReached(cursor, store);
    if cursor == [] {
      NothingReached(cursor);
    } else {
      ReachOne(cursor, store, |cursor| - 1);
    }
  }

  /** What a scan has not reached is as it was. */
  lemma Untouched(store: Store, done: set<PrimaryKey>, k: PrimaryKey)
    requires k in store && k !in done
    ensures k in Swept(store, done) && Swept(store, done)[k] == store[k]
  {
  }

  /** What has been done when a cursor is at its `i`th step. */
  ghost predicate Scanning(before: Store, cursor: seq<PrimaryKey>, i: nat, store: Store, scannedBytes: nat,
                           found: seq<Stored>) {
    i <= |cursor| && store == Swept(before, Reached(cursor, i)) && Scanned(before, Reached(cursor, i), scannedBytes, found)
  }

  lemma ScanStarts(before: Store, cursor: seq<PrimaryKey>)
    ensures Scanning(before, cursor, 0, before, 0, [])
  {
    hide Scanned; hide Swept; hide Reached;
    NothingReached(cursor);
    NothingScanned(before);
  }

  lemma ScanStep(before: Store, cursor: seq<PrimaryKey>, i: nat, store: Store, scannedBytes: nat, found: seq<Stored>)
    requires Walks(cursor, before) && i < |cursor| && Scanning(before, cursor, i, store, scannedBytes, found)
    ensures cursor[i] in store
    ensures var k := cursor[i]; var r := store[k];
      && Scanning(before, cursor, i + 1, if Sound(k, r) then store else store - {k}, scannedBytes + ScanSize(r),
                  if Sound(k, r) then found + [r.content.value] else found)
      && (i + 1 > MAX_SCAN_ENTRIES || scannedBytes + ScanSize(r) > MAX_SCAN_BYTES ==> Oversized(before))
  {
    hide Scanned; hide Swept; hide Reached; hide Walks; hide ValidEntry; hide Oversized; hide ScanSize;
    ReachOne(cursor, before, i);
    var k := cursor[i];
    Untouched(before, Reached(cursor, i), k);
    ScanOne(before, Reached(cursor, i), scannedBytes, found, k);
    var r := store[k];
    var bytes: nat := scannedBytes + ScanSize(r);
    if i + 1 > MAX_SCAN_ENTRIES || bytes > MAX_SCAN_BYTES {
      TooFar(before, Reached(cursor, i + 1), bytes, if Sound(k, r) then found + [r.content.value] else found);
    }
  }

  lemma ScanEnds(before: Store, cursor: seq<PrimaryKey>, store: Store, scannedBytes: nat, found: seq<Stored>)
    requires Walks(cursor, before) && Scanning(before, cursor, |cursor|, store, scannedBytes, found)
    requires |cursor| <= MAX_SCAN_ENTRIES && scannedBytes <= MAX_SCAN_BYTES
    ensures !Oversized(before) && store == Cleaned(before) && Lists(found, store)
  {
    hide Scanned; hide Swept; hide Reached; hide Walks; hide Cleaned; hide Lists; hide Oversized;
    AllReached(cursor, before);
    AllScanned(before, scannedBytes, found);
  }

  lemma SoundHasContent(k: PrimaryKey, r: Record)
    requires Sound(k, r)
    ensures r.content.Some?
  {
  }

  // ----- What a write leaves -----

  lemma KeysOfPrefix(s: seq<Stored>, n: nat)
    requires n < |s|
    ensures KeysOf(s[..n + 1]) == KeysOf(s[..n]) + {TextKey(s[n].key)}
    ensures EvictedKeys(s[..n + 1]) == EvictedKeys(s[..n]) + [s[n].key]
  {
    assert s[..n + 1] == s[..n] + [s[n]];
  }

  lemma {:induction false} ListsSuffix(s: seq<Stored>, store: Store, n: nat)
    requires Lists(s, store) && n <= |s|
    ensures Lists(s[n..], store - KeysOf(s[..n]))
  {
    hide Lists; hide KeysOf;
    if n == 0 {
      assert s[0..] == s && s[..0] == [];
      NoKeys(store);
    } else {
      ListsSuffix(s, store, n - 1);
      var rest := s[n - 1..];
      ListsTail(rest, store - KeysOf(s[..n - 1]));
      KeysOfPrefix(s, n - 1);
      assert rest[1..] == s[n..];
      assert store - KeysOf(s[..n - 1]) - {TextKey(rest[0].key)} == store - KeysOf(s[..n]);
    }
  }

  lemma NoKeys(store: Store)
    ensures store - KeysOf([]) == store
  {
    assert KeysOf([]) == {};
  }

  /** The store after the write. */
  ghost function Outcome(cleaned: Store, sorted: seq<Stored>, n: nat, e: Stored): Store
    requires n <= |sorted|
  {
    (cleaned - KeysOf(sorted[..n]))[TextKey(e.key) := RecordOf(e)]
  }

  /** The new entry and the newest old ones, within the quota, are all that the store now holds. */
  lemma OutcomeIsListed(cleaned: Store, sorted: seq<Stored>, n: nat, e: Stored)
    requires n <= |sorted| && Lists(sorted, cleaned - {TextKey(e.key)}) && Fits(sorted[n..] + [e])
    ensures var after := Outcome(cleaned, sorted, n, e);
      && Lists(sorted[n..] + [e], after)
      && |after| == |sorted[n..] + [e]| <= MAX_ENTRIES
      && Sum(SizesOf(after)) == TotalBytes(sorted[n..] + [e]) <= MAX_TOTAL_BYTES
  {
    hide Lists; hide KeysOf; hide Sum; hide TotalBytes; hide JsonSize;
    var others := cleaned - {TextKey(e.key)};
    ListsSuffix(sorted, others, n);
    ListsAppend(sorted[n..], others - KeysOf(sorted[..n]), e, RecordOf(e));
    assert Outcome(cleaned, sorted, n, e) == (others - KeysOf(sorted[..n]))[TextKey(e.key) := RecordOf(e)];
    UsageIsReal(sorted[n..] + [e], Outcome(cleaned, sorted, n, e));
  }

  lemma OwnOutcome(cleaned: Store, sorted: seq<Stored>, n: nat, e: Stored)
    requires n <= |sorted| && Lists(sorted, cleaned - {TextKey(e.key)}) && Fits(sorted[n..] + [e])
    requires Own(cleaned) && ValidEntry(e) && |e.updatedAt| <= 27
    ensures Own(Outcome(cleaned, sorted, n, e))
  {
    hide Lists; hide KeysOf; hide Sum; hide OwnRecord; hide ValidEntry; hide Fits; hide SizesOf; hide RecordOf;
    hide TotalBytes;
    OutcomeIsListed(cleaned, sorted, n, e);
    NewRecordIsOwn(e);
  }

  lemma NewRecordIsOwn(e: Stored)
    requires ValidEntry(e) && |e.updatedAt| <= 27
    ensures OwnRecord(TextKey(e.key), RecordOf(e))
  {
  }

  lemma EvictOne(s: seq<Stored>, e: Stored)
    requires !Fits(s + [e]) && ValidEntry(e)
    ensures s != [] && EvictionCount(s, e) == 1 + EvictionCount(s[1..], e)
  {
    hide Fits; hide ValidEntry;
    EntryFitsAlone(e);
    assert s == [] ==> s + [e] == [e];
  }

  /** What has been done after `n` evictions. */
  ghost predicate Evicting(before: Store, valid: seq<Stored>, e: Stored, n: nat, projected: seq<Stored>, store: Store,
                           evictedKeys: seq<Text>)
  {
    && n <= |valid| && projected == valid[n..] + [e]
    && EvictionCount(valid, e) == n + EvictionCount(valid[n..], e)
    && evictedKeys == EvictedKeys(valid[..n])
    && store == before - KeysOf(valid[..n])
  }

  lemma EvictingStarts(before: Store, valid: seq<Stored>, e: Stored)
    ensures Evicting(before, valid, e, 0, valid + [e], before, [])
  {
    hide EvictionCount; hide KeysOf;
    NoKeys(before);
    assert valid[0..] == valid && valid[..0] == [];
  }

  lemma EvictingStep(before: Store, valid: seq<Stored>, e: Stored, n: nat, projected: seq<Stored>, store: Store,
                     evictedKeys: seq<Text>)
    requires Evicting(before, valid, e, n, projected, store, evictedKeys) && !Fits(projected) && ValidEntry(e)
    requires forall x :: x in valid ==> x.key != e.key
    ensures projected != [] && projected[0].key != e.key
    ensures Evicting(before, valid, e, n + 1, projected[1..], store - {TextKey(projected[0].key)},
                     evictedKeys + [projected[0].key])
  {
    hide Fits; hide KeysOf; hide ValidEntry; hide EvictedKeys; hide EvictionCount;
    EvictOne(valid[n..], e);
    KeysOfPrefix(valid, n);
    assert valid[n] in valid;
    assert valid[n..][1..] == valid[n + 1..];
    assert projected[0] == valid[n] && projected[1..] == valid[n + 1..] + [e];
    assert before - KeysOf(valid[..n]) - {TextKey(valid[n].key)} == before - KeysOf(valid[..n + 1]);
  }

  lemma EvictingEnds(before: Store, valid: seq<Stored>, e: Stored, n: nat, projected: seq<Stored>, store: Store,
                     evictedKeys: seq<Text>)
    requires Evicting(before, valid, e, n, projected, store, evictedKeys) && Fits(projected)
    requires Lists(valid, before - {TextKey(e.key)})
    ensures n == EvictionCount(valid, e) && n <= |valid| && Fits(valid[n..] + [e])
    ensures evictedKeys == EvictedKeys(valid[..n])
    ensures store[TextKey(e.key) := RecordOf(e)] == Outcome(before, valid, n, e)
    ensures |projected| == |Outcome(before, valid, n, e)|
    ensures TotalBytes(projected) == Sum(SizesOf(Outcome(before, valid, n, e)))
  {
    hide Fits; hide KeysOf; hide EvictedKeys; hide Lists; hide Sum; hide SizesOf; hide TotalBytes; hide RecordOf;
    OutcomeIsListed(before, valid, n, e);
    assert EvictionCount(valid[n..], e) == 0;
  }

  /** Eviction takes the oldest: what went was written before everything that stays, or at the same
      time and under a key that does not come after. */
  lemma EvictsTheOldest(sorted: seq<Stored>, compareText: (Text, Text) -> int, n: nat, gone: Stored, stays: Stored)
    requires Sorted(sorted, ByAge(compareText)) && n <= |sorted| && gone in sorted[..n] && stays in sorted[n..]
    ensures ByAge(compareText)(gone, stays) <= 0
    ensures || compareText(gone.updatedAt, stays.updatedAt) < 0
            || (compareText(gone.updatedAt, stays.updatedAt) == 0 && compareText(gone.key, stays.key) <= 0)
  {
    var i :| 0 <= i < n && sorted[..n][i] == gone;
    var j :| 0 <= j < |sorted| - n && sorted[n..][j] == stays;
    assert NotAfter(ByAge(compareText))(sorted[i], sorted[n + j]);
  }

  /** The store is within its quota, and the last entry that went would not have fitted back in. */
  ghost predicate Tight(after: Store, sorted: seq<Stored>, n: nat)
    requires n <= |sorted|
  {
    && |after| <= 64 && Sum(SizesOf(after)) <= 262144
    && (n > 0 ==> |after| + 1 > 64 || Sum(SizesOf(after)) + sorted[n - 1].bytes > 262144)
  }

  /** No more is evicted than has to be. */
  lemma EvictsNoMoreThanNeeded(cleaned: Store, sorted: seq<Stored>, n: nat, e: Stored)
    requires n <= |sorted| && Lists(sorted, cleaned - {TextKey(e.key)}) && Fits(sorted[n..] + [e]) && ValidEntry(e)
    requires n == EvictionCount(sorted, e)
    ensures Tight(Outcome(cleaned, sorted, n, e), sorted, n)
  {
    hide Lists; hide Sum; hide SizesOf; hide TotalBytes; hide EvictionCount; hide ValidEntry; hide Outcome;
    OutcomeIsListed(cleaned, sorted, n, e);
    EntryFitsAlone(e);
    if n > 0 {
      EvictsTheShortestPrefix(sorted, e, n - 1);
      assert sorted[n - 1..] + [e] == [sorted[n - 1]] + (sorted[n..] + [e]);
      TotalOfCons(sorted[n - 1], sorted[n..] + [e]);
    }
  }

  lemma TotalOfCons(e: Stored, rest: seq<Stored>)
    ensures TotalBytes([e] + rest) == e.bytes + TotalBytes(rest)
  {
    assert ([e] + rest)[1..] == rest;
  }

  /** The new entry is stored, the evicted ones are gone, and every other sound record is as it was. */
  lemma WriteTouchesNothingElse(before: Store, sorted: seq<Stored>, n: nat, e: Stored, k: PrimaryKey)
    requires n <= |sorted|
    ensures var after := Outcome(Cleaned(before), sorted, n, e);
      && (k == TextKey(e.key) ==> k in after && after[k].content == Some(e))
      && (k in after && k != TextKey(e.key) ==> k in before && after[k] == before[k])
      && (k in before && Sound(k, before[k]) && k != TextKey(e.key) ==>
            (k !in after <==> exists i :: 0 <= i < n && k == TextKey(sorted[i].key)))
  {
    hide Sound; hide JsonSize;
    if k in KeysOf(sorted[..n]) {
      var x :| x in sorted[..n] && TextKey(x.key) == k;
      var i :| 0 <= i < n && sorted[i] == x;
      assert k == TextKey(sorted[i].key);
    }
    if i :| 0 <= i < n && k == TextKey(sorted[i].key) {
      assert sorted[..n][i] in sorted[..n];
    }
  }

  /** What a write leaves, in terms of the records before it and of the keys reported as evicted. */
  ghost predicate Replaced(before: Store, after: Store, e: Stored, evictedKeys: seq<Text>) {
    && TextKey(e.key) in after && after[TextKey(e.key)].content == Some(e)
    && forall k :: k != TextKey(e.key) ==>
      && (k in after ==> k in before && after[k] == before[k])
      && (k in before && Sound(k, before[k]) ==>
            (k !in after <==> exists i :: 0 <= i < |evictedKeys| && k == TextKey(evictedKeys[i])))
  }

  lemma WriteReplaces(before: Store, sorted: seq<Stored>, n: nat, e: Stored)
    requires n <= |sorted|
    ensures Replaced(before, Outcome(Cleaned(before), sorted, n, e), e, EvictedKeys(sorted[..n]))
  {
    var after, evictedKeys := Outcome(Cleaned(before), sorted, n, e), EvictedKeys(sorted[..n]);
    assert forall i :: 0 <= i < n ==> evictedKeys[i] == sorted[i].key;
    hide Outcome; hide Cleaned; hide Sound;
    WriteTouchesNothingElse(before, sorted, n, e, TextKey(e.key));
    forall k | k != TextKey(e.key)
      ensures k in after ==> k in before && after[k] == before[k]
      ensures k in before && Sound(k, before[k]) ==>
        (k !in after <==> exists i :: 0 <= i < |evictedKeys| && k == TextKey(evictedKeys[i]))
    {
      WriteTouchesNothingElse(before, sorted, n, e, k);
    }
  }

  /** Every one of the first `n` entries was written before every later one, or at the same time and
      under a key that does not come after. */
  ghost predicate OldestFirst(sorted: seq<Stored>, compareText: (Text, Text) -> int, n: nat)
    requires n <= |sorted|
  {
    forall gone, stays :: gone in sorted[..n] && stays in sorted[n..] ==>
      || compareText(gone.updatedAt, stays.updatedAt) < 0
      || (compareText(gone.updatedAt, stays.updatedAt) == 0 && compareText(gone.key, stays.key) <= 0)
  }

  lemma OldestGoFirst(sorted: seq<Stored>, compareText: (Text, Text) -> int, n: nat)
    requires Sorted(sorted, ByAge(compareText)) && n <= |sorted|
    ensures OldestFirst(sorted, compareText, n)
  {
    hide Sorted; hide ByAge;
    forall gone, stays | gone in sorted[..n] && stays in sorted[n..]
      ensures || compareText(gone.updatedAt, stays.updatedAt) < 0
              || (compareText(gone.updatedAt, stays.updatedAt) == 0 && compareText(gone.key, stays.key) <= 0)
    {
      EvictsTheOldest(sorted, compareText, n, gone, stays);
    }
  }

  /** The entries that may have to go, oldest first. */
  lemma OthersByAge(entries: seq<Stored>, store: Store, key: Text, compareText: (Text, Text) -> int)
    requires Lists(entries, store) && Preorder(compareText)
    ensures var sorted := Sort(Keep(entries, OtherThan(key)), ByAge(compareText));
      && Lists(sorted, store - {TextKey(key)}) && Sorted(sorted, ByAge(compareText))
      && forall e :: e in sorted ==> e.key != key
  {
    hide Lists; hide Sort; hide Sorted; hide Preorder; hide ByAge; hide Keep;
    var valid := Keep(entries, OtherThan(key));
    OthersLists(entries, store, key);
    SortedLists(valid, store - {TextKey(key)}, ByAge(compareText));
    ByAgeIsPreorder(compareText);
    SortIsStable(valid, ByAge(compareText), (e: Stored) => false);
    SameElements(Sort(valid, ByAge(compareText)), valid);
  }

  lemma OversizedMeans(store: Store)
    ensures Oversized(store) <==> |store| > 256 || Sum(ScanSizes(store)) > 524288
  {
    hide Sum;
  }

  class Storage {
    // `localeCompare`
    const compareText: (Text, Text) -> int
    var store: Store

    constructor (compareText: (Text, Text) -> int)
      ensures this.compareText == compareText && store == map[]
    {
      this.compareText := compareText;
      store := map[];
    }

    /** Walks over all records, deletes what is not sound, and gives up on a store that is too large. */
    method Scan(cursor: seq<PrimaryKey>) returns (entries: Option<seq<Stored>>)
      requires Walks(cursor, store)
      modifies this
      ensures entries.None? <==> Oversized(old(store))
      ensures entries.None? <==> |old(store)| > 256 || Sum(ScanSizes(old(store))) > 524288
      ensures entries.None? ==> store == map[]
      ensures entries.Some? ==> store == Cleaned(old(store)) && Lists(entries.value, store)
    {
      OversizedMeans(store);
      hide Scanning; hide Walks; hide Sound; hide Cleaned; hide Lists; hide Oversized;
      ghost var before := store;
      ScanStarts(before, cursor);
      var found := [];
      var scannedEntries: nat, scannedBytes: nat := 0, 0;
      for i := 0 to |cursor|
        invariant scannedEntries == i <= MAX_SCAN_ENTRIES && scannedBytes <= MAX_SCAN_BYTES
        invariant Scanning(before, cursor, i, store, scannedBytes, found)
      {
        ScanStep(before, cursor, i, store, scannedBytes, found);
        var k := cursor[i];
        var record := store[k];
        scannedEntries := scannedEntries + 1;
        scannedBytes := scannedBytes + ScanSize(record);
        if scannedEntries > MAX_SCAN_ENTRIES || scannedBytes > MAX_SCAN_BYTES {
          store := map[];
          return None;
        }
        if Sound(k, record) {
          SoundHasContent(k, record);
          found := found + [record.content.value];
        } else {
          store := store - {k};
        }
      }
      ScanEnds(before, cursor, store, scannedBytes, found);
      return Some(found);
    }

    /** `permitted` is the verdict of the checks on forbidden names, on the shape of the value and on
        the clock; `value` is its JSON text. The ghost results are the old entries, oldest first,
        and how many of them went. */
    method Put(key: Text, value: Text, permitted: bool, updatedAt: Text, cursor: seq<PrimaryKey>)
      returns (r: PutResult, ghost sorted: seq<Stored>, ghost n: nat)
      requires Preorder(compareText) && Walks(cursor, store)
      modifies this
      ensures r.Refused? <==> !permitted || !ValidKey(key) || Utf8Size(value) > MAX_VALUE_BYTES
      ensures r.Refused? ==> store == old(store)
      ensures r.ScanFailed? ==> store == map[] && Oversized(old(store))
      ensures !r.Refused? && Oversized(old(store)) ==> r.ScanFailed?
      ensures !r.Aborted?
      ensures r.Written? ==>
        var e := Stored(key, value, updatedAt, StoredBytes(key, value));
        && Lists(sorted, Cleaned(old(store)) - {TextKey(key)}) && Sorted(sorted, ByAge(compareText))
        && n == EvictionCount(sorted, e) && Fits(sorted[n..] + [e])
        && r.entry == e && r.evictedKeys == EvictedKeys(sorted[..n])
        && store == Outcome(Cleaned(old(store)), sorted, n, e)
        && r.usage == Usage(|store|, Sum(SizesOf(store)))
      ensures r.Refused? <==> !permitted || !ValidKey(key) || Utf8Size(value) > 32768
      // What is stored, what is gone, that the oldest went, and that no more went than had to.
      ensures r.Written? ==>
        && n <= |sorted| && OldestFirst(sorted, compareText, n) && Tight(store, sorted, n)
        && Replaced(old(store), store, Stored(key, value, updatedAt, Utf8Size(key) + Utf8Size(value) + 64), r.evictedKeys)
      ensures Own(old(store)) && |updatedAt| <= 27 ==> Own(store) && !r.ScanFailed?
    {
      hide Sum; hide Lists; hide Oversized; hide Cleaned; hide Own; hide Outcome; hide Sorted; hide Fits; hide Sort;
      hide ValidKey; hide Utf8Size; hide ByAge; hide Preorder; hide Walks;
      hide Replaced; hide OldestFirst; hide Tight; hide EvictedKeys; hide SizesOf; hide RecordOf; hide KeysOf; hide Keep;
      sorted, n := [], 0;
      if !permitted || !ValidKey(key) || Utf8Size(value) > MAX_VALUE_BYTES {
        return Refused, sorted, n;
      }
      if Own(store) {
        OwnStoreIsNeverCleared(store);
      }
      var entry := Stored(key, value, updatedAt, StoredBytes(key, value));
      var scan := Scan(cursor);
      if scan.None? {
        return ScanFailed, sorted, n;
      }
      OthersByAge(scan.value, store, key, compareText);
      var valid := Sort(Keep(scan.value, OtherThan(key)), ByAge(compareText));
      sorted := valid;
      var evictedKeys, usage;
      evictedKeys, usage, n := Evict(valid, entry);
      r := Written(entry, evictedKeys, usage);
      EvictsNoMoreThanNeeded(Cleaned(old(store)), sorted, n, entry);
      WriteReplaces(old(store), sorted, n, entry);
      OldestGoFirst(sorted, compareText, n);
      if Own(old(store)) && |updatedAt| <= 27 {
        OwnOutcome(Cleaned(old(store)), sorted, n, entry);
      }
    }

    /** The eviction loop and the write itself. The branch of the loop that would have evicted the
        new entry, or found nothing left to evict, is never taken. */
    method Evict(valid: seq<Stored>, entry: Stored) returns (evictedKeys: seq<Text>, usage: Usage, ghost n: nat)
      requires ValidEntry(entry) && Lists(valid, store - {TextKey(entry.key)})
      requires forall e :: e in valid ==> e.key != entry.key
      modifies this
      ensures n == EvictionCount(valid, entry) && Fits(valid[n..] + [entry])
      ensures evictedKeys == EvictedKeys(valid[..n])
      ensures store == Outcome(old(store), valid, n, entry)
      ensures usage == Usage(|store|, Sum(SizesOf(store)))
    {
      hide Evicting; hide Fits; hide Lists; hide ValidEntry; hide Outcome; hide RecordOf; hide KeysOf; hide EvictedKeys;
      hide EvictionCount; hide TotalBytes; hide Sum; hide SizesOf;
      ghost var before := store;
      evictedKeys, n := [], 0;
      var projected := valid + [entry];
      EvictingStarts(store, valid, entry);
      while !Fits(projected)
        invariant Evicting(before, valid, entry, n, projected, store, evictedKeys)
        decreases |projected|
      {
        EvictingStep(before, valid, entry, n, projected, store, evictedKeys);
        if |projected| == 0 || projected[0].key == entry.key {
          assert false;
        }
        store := store - {TextKey(projected[0].key)};
        evictedKeys := evictedKeys + [projected[0].key];
        projected := projected[1..];
        n := n + 1;
      }
      EvictingEnds(before, valid, entry, n, projected, store, evictedKeys);
      store := store[TextKey(entry.key) := RecordOf(entry)];
      usage := Usage(|projected|, TotalBytes(projected));
    }
  }
}
