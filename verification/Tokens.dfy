/** One-time tokens. A token stands for its digest: the digest is taken to be injective. */
module Tokens {
  import opened Common
  import opened Sequences
  import opened Expiring

  function Issued<V>(s: seq<Entry<V>>, cap: nat, ttlMs: nat, now: nat, token: Uuid, value: V): seq<Entry<V>>
    requires cap >= 1
  {
    Inserted(s, cap, now, Entry(token, now + ttlMs, value))
  }

  /** What a consumption answers. */
  function Grants<V>(s: seq<Entry<V>>, now: nat, token: Uuid, accept: V -> bool): Option<V> {
    var found := Lookup(s, token);
    if found.Some? && found.value.expiresAt > now && accept(found.value.value) then Some(found.value.value) else None
  }

  /** What a consumption leaves: an expired or a granted token goes, a refused one stays. */
  function AfterConsume<V>(s: seq<Entry<V>>, now: nat, token: Uuid, accept: V -> bool): seq<Entry<V>> {
    var found := Lookup(s, token);
    if found.Some? && (found.value.expiresAt <= now || accept(found.value.value)) then Without(s, token) else s
  }

  function NotAccepted<V>(accept: V -> bool): Entry<V> -> bool {
    (e: Entry<V>) => !accept(e.value)
  }

  function Revoked<V>(s: seq<Entry<V>>, accept: V -> bool): seq<Entry<V>> {
    Keep(s, NotAccepted(accept))
  }

  ghost predicate Inv<V>(s: seq<Entry<V>>, cap: nat, ttlMs: nat, clock: nat) {
    && InOrder(s)
    && |s| <= cap
    && forall e :: e in s ==> e.expiresAt <= clock + ttlMs
  }

  lemma IssueKeepsInv<V>(s: seq<Entry<V>>, cap: nat, ttlMs: nat, clock: nat, now: nat, token: Uuid, value: V)
    requires cap >= 1 && Inv(s, cap, ttlMs, clock) && clock <= now && !HasKey(s, token)
    ensures Inv(Issued(s, cap, ttlMs, now, token, value), cap, ttlMs, now)
    ensures forall e :: e in Issued(s, cap, ttlMs, now, token, value) ==>
      e in s || e == Entry(token, now + ttlMs, value)
    ensures Entry(token, now + ttlMs, value) in Issued(s, cap, ttlMs, now, token, value)
  {
    InsertedInOrder(s, cap, now, Entry(token, now + ttlMs, value));
  }

  lemma FilterKeepsInv<V>(s: seq<Entry<V>>, cap: nat, ttlMs: nat, clock: nat, now: nat, p: Entry<V> -> bool)
    requires Inv(s, cap, ttlMs, clock) && clock <= now
    ensures Inv(Keep(s, p), cap, ttlMs, now)
  {
    KeepInOrder(s, p);
    KeepMembers(s, p);
  }

  lemma ConsumeKeepsInv<V>(s: seq<Entry<V>>, cap: nat, ttlMs: nat, clock: nat, now: nat, token: Uuid, accept: V -> bool)
    requires Inv(s, cap, ttlMs, clock) && clock <= now
    ensures Inv(AfterConsume(s, now, token, accept), cap, ttlMs, now)
  {
    FilterKeepsInv(s, cap, ttlMs, clock, now, OtherKey<V>(token));
  }

  lemma OrderOf<V>(s: seq<Entry<V>>, cap: nat, ttlMs: nat, clock: nat)
    requires Inv(s, cap, ttlMs, clock)
    ensures InOrder(s)
  {
  }

  /** What an attempt does to each entry, spelled out: entries with other keys stay; the token's own
      entry goes if it has expired or is accepted, and stays if it is refused. */
  lemma ConsumeMeans<V>(s: seq<Entry<V>>, now: nat, token: Uuid, accept: V -> bool)
    requires InOrder(s)
    ensures forall e :: e in AfterConsume(s, now, token, accept) ==> e in s
    ensures forall e :: e in s && e.key != token ==> e in AfterConsume(s, now, token, accept)
    ensures forall e :: e in s && e.key == token ==>
      (e in AfterConsume(s, now, token, accept) <==> e.expiresAt > now && !accept(e.value))
    ensures forall e :: e in s && e.key == token ==>
      Grants(s, now, token, accept) == if e.expiresAt > now && accept(e.value) then Some(e.value) else None
    ensures (forall e :: e in s ==> e.key != token) ==> Grants(s, now, token, accept) == None
  {
    hide Pairwise; hide InOrder;
    KeepMembers(s, OtherKey<V>(token));
    forall e | e in s && e.key == token ensures Lookup(s, token) == Some(e) {
      LookupUnique(s, e);
    }
    if Lookup(s, token).Some? {
      assert Lookup(s, token).value in s;
    }
  }

  lemma RevokeMeans<V>(s: seq<Entry<V>>, accept: V -> bool)
    ensures forall e :: e in Revoked(s, accept) ==> e in s && !accept(e.value)
    ensures forall e :: e in s && !accept(e.value) ==> e in Revoked(s, accept)
  {
    KeepMembers(s, NotAccepted(accept));
  }

  class OneTimeTokenStore<V> {
    const ttlMs: nat
    const maxEntries: nat
    var entries: seq<Entry<V>>
    // The last time the clock was read.
    ghost var clock: nat

    ghost predicate Valid()
      reads this
    {
      maxEntries >= 1 && Inv(entries, maxEntries, ttlMs, clock)
    }

    constructor (ttlMs: nat, maxEntries: nat)
      requires maxEntries >= 1
      ensures Valid() && entries == [] && this.ttlMs == ttlMs && this.maxEntries == maxEntries && clock == 0
    {
      this.ttlMs, this.maxEntries := ttlMs, maxEntries;
      entries := [];
      clock := 0;
    }

    /** `token` is the freshly drawn secret. */
    method Issue(value: V, token: Uuid, now: nat) returns (expiresAt: nat)
      requires Valid() && clock <= now && !HasKey(entries, token)
      modifies this
      ensures Valid() && clock == now && expiresAt == now + ttlMs
      ensures entries == Issued(old(entries), maxEntries, ttlMs, now, token, value)
    {
      hide Inv; hide Keep;
      IssueKeepsInv(entries, maxEntries, ttlMs, clock, now, token, value);
      Sweep(now);
      entries := MakeRoom(entries, maxEntries);
      expiresAt := now + ttlMs;
      entries := entries + [Entry(token, expiresAt, value)];
    }

    method ConsumeIf(token: Uuid, accept: V -> bool, now: nat) returns (granted: Option<V>)
      requires Valid() && clock <= now
      modifies this
      ensures Valid() && clock == now
      ensures granted == Grants(old(entries), now, token, accept)
      ensures entries == AfterConsume(old(entries), now, token, accept)
      // Spelled out: what is granted, what goes and what stays.
      ensures forall e :: e in entries ==> e in old(entries)
      ensures forall e :: e in old(entries) && e.key != token ==> e in entries
      ensures forall e :: e in old(entries) && e.key == token ==>
        && (e in entries <==> e.expiresAt > now && !accept(e.value))
        && granted == if e.expiresAt > now && accept(e.value) then Some(e.value) else None
      ensures (forall e :: e in old(entries) ==> e.key != token) ==> granted == None
    {
      hide Inv; hide Keep;
      OrderOf(entries, maxEntries, ttlMs, clock);
      ConsumeMeans(entries, now, token, accept);
      ConsumeKeepsInv(entries, maxEntries, ttlMs, clock, now, token, accept);
      clock := now;
      var entry := Lookup(entries, token);
      if entry.None? {
        return None;
      }
      if entry.value.expiresAt <= now {
        entries := DeleteWhile(entries, OtherKey(token));
        return None;
      }
      if !accept(entry.value.value) {
        return None;
      }
      entries := DeleteWhile(entries, OtherKey(token));
      return Some(entry.value.value);
    }

    method RevokeAll(accept: V -> bool)
      requires Valid()
      modifies this`entries
      ensures Valid() && entries == Revoked(old(entries), accept)
      ensures forall e :: e in entries ==> e in old(entries) && !accept(e.value)
      ensures forall e :: e in old(entries) && !accept(e.value) ==> e in entries
    {
      RevokeMeans(entries, accept);
      FilterKeepsInv(entries, maxEntries, ttlMs, clock, clock, NotAccepted(accept));
      entries := DeleteWhile(entries, NotAccepted(accept));
    }

    method Sweep(now: nat)
      requires Valid() && clock <= now
      modifies this
      ensures Valid() && clock == now && entries == Live(old(entries), now)
      ensures forall e :: e in entries ==> e in old(entries) && e.expiresAt > now
      ensures forall e :: e in old(entries) && e.expiresAt > now ==> e in entries
    {
      KeepMembers(entries, IsLive<V>(now));
      FilterKeepsInv(entries, maxEntries, ttlMs, clock, now, IsLive<V>(now));
      entries := DeleteWhile(entries, IsLive(now));
      clock := now;
    }

    method Size(now: nat) returns (n: nat)
      requires Valid() && clock <= now
      modifies this
      ensures Valid() && clock == now && entries == Live(old(entries), now) && n == |entries| <= maxEntries
    {
      Sweep(now);
      n := |entries|;
    }
  }
}

/** The life of a token store: what its callers can have got out of it. */
module TokenHistory {
  import opened Common
  import opened Sequences
  import opened Expiring
  import opened Tokens

  datatype Operation<!V> =
    | Issue(now: nat, token: Uuid, value: V)
    | Consume(now: nat, token: Uuid, accept: V -> bool)
    | Revoke(accept: V -> bool)
    | Sweep(now: nat)

  datatype Redemption<V> = Redemption(token: Uuid, at: nat, value: V)

  /** `issued` remembers every entry ever made and `redeemed` every value ever handed out. */
  datatype Ledger<V> = Ledger(
    entries: seq<Entry<V>>,
    clock: nat,
    issued: map<Uuid, Entry<V>>,
    redeemed: seq<Redemption<V>>)

  datatype Config = Config(cap: nat, ttlMs: nat)

  ghost predicate Possible<V>(l: Ledger<V>, op: Operation<V>) {
    && (!op.Revoke? ==> l.clock <= op.now)
    && (op.Issue? ==> op.token !in l.issued)
  }

  function Apply<V>(l: Ledger<V>, config: Config, op: Operation<V>): Ledger<V>
    requires config.cap >= 1
  {
    match op
    case Issue(now, token, value) =>
      l.(entries := Issued(l.entries, config.cap, config.ttlMs, now, token, value), clock := now,
         issued := l.issued[token := Entry(token, now + config.ttlMs, value)])
    case Consume(now, token, accept) =>
      var granted := Grants(l.entries, now, token, accept);
      l.(entries := AfterConsume(l.entries, now, token, accept), clock := now,
         redeemed := if granted.Some? then l.redeemed + [Redemption(token, now, granted.value)] else l.redeemed)
    case Revoke(accept) => l.(entries := Revoked(l.entries, accept))
    case Sweep(now) => l.(entries := Live(l.entries, now), clock := now)
  }

  ghost predicate Recorded<V>(l: Ledger<V>) {
    forall e :: e in l.entries ==> e.key in l.issued && l.issued[e.key] == e
  }

  /** Every redemption was of an issued token, at its issued value, before it expired. */
  ghost predicate RedeemedInTime<V>(l: Ledger<V>) {
    forall i :: 0 <= i < |l.redeemed| ==>
      && l.redeemed[i].token in l.issued
      && l.redeemed[i].value == l.issued[l.redeemed[i].token].value
      && l.redeemed[i].at < l.issued[l.redeemed[i].token].expiresAt
  }

  /** No token was redeemed twice, and none that was redeemed can be again. */
  ghost predicate RedeemedOnce<V>(l: Ledger<V>) {
    && (forall i, j :: 0 <= i < j < |l.redeemed| ==> l.redeemed[i].token != l.redeemed[j].token)
    && (forall i :: 0 <= i < |l.redeemed| ==> !HasKey(l.entries, l.redeemed[i].token))
  }

  ghost predicate LedgerInv<V>(l: Ledger<V>, config: Config) {
    && Inv(l.entries, config.cap, config.ttlMs, l.clock)
    && Recorded(l) && RedeemedInTime(l) && RedeemedOnce(l)
  }

  lemma FilterKeepsLedger<V>(l: Ledger<V>, config: Config, now: nat, p: Entry<V> -> bool)
    requires LedgerInv(l, config) && l.clock <= now
    ensures LedgerInv(l.(entries := Keep(l.entries, p), clock := now), config)
  {
    FilterKeepsInv(l.entries, config.cap, config.ttlMs, l.clock, now, p);
    KeepMembers(l.entries, p);
    forall i | 0 <= i < |l.redeemed| ensures !HasKey(Keep(l.entries, p), l.redeemed[i].token) {
      SubsetHasNoKey(l.entries, Keep(l.entries, p), l.redeemed[i].token);
    }
  }

  lemma IssueKeepsLedger<V>(l: Ledger<V>, config: Config, now: nat, token: Uuid, value: V)
    requires config.cap >= 1 && LedgerInv(l, config) && Possible(l, Issue(now, token, value))
    ensures LedgerInv(Apply(l, config, Issue(now, token, value)), config)
  {
    var after := Apply(l, config, Issue(now, token, value));
    AbsentKey(l.entries, token);
    IssueKeepsInv(l.entries, config.cap, config.ttlMs, l.clock, now, token, value);
    forall i | 0 <= i < |l.redeemed| ensures !HasKey(after.entries, l.redeemed[i].token) {
      forall e | e in after.entries ensures e.key != l.redeemed[i].token {
        if e in l.entries {
          var j :| 0 <= j < |l.entries| && l.entries[j] == e;
        }
      }
      AbsentKey(after.entries, l.redeemed[i].token);
    }
  }

  lemma GoneAfterUse<V>(s: seq<Entry<V>>, token: Uuid)
    ensures !HasKey(Without(s, token), token)
  {
    KeepMembers(s, OtherKey<V>(token));
    AbsentKey(Without(s, token), token);
  }

  /** Handing out the value of an entry that is there, not expired, and gone afterwards. */
  lemma RedeemKeepsLedger<V>(l: Ledger<V>, after: Ledger<V>, config: Config, e: Entry<V>, now: nat)
    requires LedgerInv(l, config) && LedgerInv(after, config) && after.redeemed == l.redeemed
      && after.issued == l.issued
    requires e in l.entries && HasKey(l.entries, e.key) && !HasKey(after.entries, e.key) && now < e.expiresAt
    ensures LedgerInv(after.(redeemed := l.redeemed + [Redemption(e.key, now, e.value)]), config)
  {
    hide Inv; hide HasKey;
  }

  lemma ConsumeKeepsLedger<V>(l: Ledger<V>, config: Config, now: nat, token: Uuid, accept: V -> bool)
    requires config.cap >= 1 && LedgerInv(l, config) && l.clock <= now
    ensures LedgerInv(Apply(l, config, Consume(now, token, accept)), config)
  {
    hide Keep; hide LedgerInv; hide HasKey;
    var found := Lookup(l.entries, token);
    FilterKeepsLedger(l, config, now, OtherKey<V>(token));
    SameLedger(l, config, now);
    GoneAfterUse(l.entries, token);
    if found.Some? && found.value.expiresAt > now && accept(found.value.value) {
      var after := l.(entries := Without(l.entries, token), clock := now);
      RedeemKeepsLedger(l, after, config, found.value, now);
    }
  }

  lemma SameLedger<V>(l: Ledger<V>, config: Config, now: nat)
    requires LedgerInv(l, config) && l.clock <= now
    ensures LedgerInv(l.(clock := now), config)
  {
  }

  lemma ApplyKeepsLedger<V>(l: Ledger<V>, config: Config, op: Operation<V>)
    requires config.cap >= 1 && LedgerInv(l, config) && Possible(l, op)
    ensures LedgerInv(Apply(l, config, op), config)
  {
    hide LedgerInv;
    match op
    case Issue(now, token, value) => IssueKeepsLedger(l, config, now, token, value);
    case Consume(now, token, accept) => ConsumeKeepsLedger(l, config, now, token, accept);
    case Revoke(accept) => FilterKeepsLedger(l, config, l.clock, NotAccepted(accept));
    case Sweep(now) => FilterKeepsLedger(l, config, now, IsLive<V>(now));
  }

  function After<V>(l: Ledger<V>, config: Config, ops: seq<Operation<V>>): Ledger<V>
    requires config.cap >= 1
    decreases |ops|
  {
    if ops == [] then l else After(Apply(l, config, ops[0]), config, ops[1..])
  }

  ghost predicate PossibleRun<V>(l: Ledger<V>, config: Config, ops: seq<Operation<V>>)
    requires config.cap >= 1
    decreases |ops|
  {
    ops != [] ==> Possible(l, ops[0]) && PossibleRun(Apply(l, config, ops[0]), config, ops[1..])
  }

  lemma {:induction false} RunKeepsLedger<V>(l: Ledger<V>, config: Config, ops: seq<Operation<V>>)
    requires config.cap >= 1 && LedgerInv(l, config) && PossibleRun(l, config, ops)
    ensures LedgerInv(After(l, config, ops), config)
    decreases |ops|
  {
    hide LedgerInv;
    if ops != [] {
      ApplyKeepsLedger(l, config, ops[0]);
      RunKeepsLedger(Apply(l, config, ops[0]), config, ops[1..]);
    }
  }

  /** Over any sequence of operations on a new store: the cap holds, and each token is worth its
      value at most once, only if it was issued, and only before it expires. */
  lemma TokensAreOneTime<V>(config: Config, ops: seq<Operation<V>>)
    requires config.cap >= 1 && PossibleRun(Ledger([], 0, map[], []), config, ops)
    ensures var l := After(Ledger([], 0, map[], []), config, ops);
      |l.entries| <= config.cap && RedeemedInTime(l) && RedeemedOnce(l)
  {
    RunKeepsLedger(Ledger([], 0, map[], []), config, ops);
  }

  /** An operation that has no business with this entry: it comes before the entry expires, and does
      not use, revoke or make room at the expense of it. */
  predicate Spares<V>(l: Ledger<V>, config: Config, op: Operation<V>, e: Entry<V>) {
    match op
    case Issue(now, _, _) => now < e.expiresAt && |l.entries| < config.cap
    case Consume(now, token, accept) => now < e.expiresAt && (token != e.key || !accept(e.value))
    case Revoke(accept) => !accept(e.value)
    case Sweep(now) => now < e.expiresAt
  }

  lemma SparedStays<V>(l: Ledger<V>, config: Config, op: Operation<V>, e: Entry<V>)
    requires config.cap >= 1 && LedgerInv(l, config) && e in l.entries && Spares(l, config, op, e)
    ensures e in Apply(l, config, op).entries
  {
    hide LedgerInv;
    LedgerIsInOrder(l, config);
    match op
    case Issue(now, token, value) => LiveStays(l.entries, config.cap, now, Entry(token, now + config.ttlMs, value), e);
    case Consume(now, token, accept) => ConsumeMeans(l.entries, now, token, accept);
    case Revoke(accept) => RevokeMeans(l.entries, accept);
    case Sweep(now) => KeepMembers(l.entries, IsLive<V>(now));
  }

  lemma LedgerIsInOrder<V>(l: Ledger<V>, config: Config)
    requires LedgerInv(l, config)
    ensures InOrder(l.entries)
  {
  }

  ghost predicate SparingRun<V>(l: Ledger<V>, config: Config, ops: seq<Operation<V>>, e: Entry<V>)
    requires config.cap >= 1
    decreases |ops|
  {
    ops != [] ==> Spares(l, config, ops[0], e) && SparingRun(Apply(l, config, ops[0]), config, ops[1..], e)
  }

  /** Refused attempts and other entries' business do a token no harm: whatever else happens, an
      attempt before it expires, with a predicate that accepts its value, is granted that value. */
  lemma {:induction false} SparedTokenIsGranted<V>(l: Ledger<V>, config: Config, ops: seq<Operation<V>>, e: Entry<V>,
                                                   now: nat, accept: V -> bool)
    requires config.cap >= 1 && LedgerInv(l, config) && PossibleRun(l, config, ops) && SparingRun(l, config, ops, e)
    requires e in l.entries && now < e.expiresAt && accept(e.value)
    ensures var after := After(l, config, ops);
      && e in after.entries
      && Apply(after, config, Consume(now, e.key, accept)).redeemed == after.redeemed + [Redemption(e.key, now, e.value)]
      && e !in Apply(after, config, Consume(now, e.key, accept)).entries
    decreases |ops|
  {
    hide LedgerInv; hide Spares;
    if ops == [] {
      LedgerIsInOrder(l, config);
      ConsumeMeans(l.entries, now, e.key, accept);
    } else {
      SparedStays(l, config, ops[0], e);
      ApplyKeepsLedger(l, config, ops[0]);
      SparedTokenIsGranted(Apply(l, config, ops[0]), config, ops[1..], e, now, accept);
    }
  }

  /** In particular, a token that one attempt was refused is still good for the next. */
  lemma RefusedThenGranted<V>(l: Ledger<V>, config: Config, e: Entry<V>, first: nat, refusing: V -> bool, second: nat,
                              accept: V -> bool)
    requires config.cap >= 1 && LedgerInv(l, config) && e in l.entries
    requires l.clock <= first <= second < e.expiresAt && !refusing(e.value) && accept(e.value)
    ensures var refused := Apply(l, config, Consume(first, e.key, refusing));
      && refused.redeemed == l.redeemed && e in refused.entries
      && Apply(refused, config, Consume(second, e.key, accept)).redeemed == l.redeemed + [Redemption(e.key, second, e.value)]
  {
    hide LedgerInv;
    LedgerIsInOrder(l, config);
    ConsumeMeans(l.entries, first, e.key, refusing);
    var refused := Apply(l, config, Consume(first, e.key, refusing));
    ApplyKeepsLedger(l, config, Consume(first, e.key, refusing));
    LedgerIsInOrder(refused, config);
    ConsumeMeans(refused.entries, second, e.key, accept);
  }
}
