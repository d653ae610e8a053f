/** What a registration brings about: when it is taken, under which name, and how it is found. */
module RegistryOutcomes {
  import opened Common
  import opened Capabilities
  import opened Totals
  import opened Sequences
  import opened Names
  import opened RegistryModel
  import opened RegistryLaws
  import opened Resolution
  import Base64

  // ----- Conflicts -----

  /** The connection has an entry of the same kind that has the same name once both are made safe, or
      is a resource with the same address. */
  ghost predicate Clashes(mine: map<string, Capability>, x: Registration) {
    exists i :: i in mine && mine[i].registration.kind == x.kind
      && (|| SafeName(mine[i].registration.name, 70) == SafeName(x.name, 70)
          || (x.kind == Resource && mine[i].registration.uri == x.uri))
  }

  /** The text of an exposed name and of an exposed address. */
  ghost predicate IsExposedAs(cap: Capability, fp: string -> string, session: Session, x: Registration) {
    && cap.registration == x && cap.session == session
    && cap.exposedName ==
       SafeName(session.appId, 20) + "_" + fp(session.appId) + "_" + fp(session.origin) + "__" + SafeName(x.name, 70)
    && cap.exposedUri ==
       if x.kind == Resource
       then Some("browsermcp://app-" + fp(session.appId) + "-" + fp(session.origin) + "/" + Base64.EncodeUrl(x.uri))
       else None
  }

  lemma ExposedIs(config: Config, session: Session, x: Registration)
    ensures IsExposedAs(Exposed(config, session, x), config.fingerprint, session, x)
  {
    hide SafeName; hide Base64.EncodeUrl;
  }

  lemma SameTail(head: string, s: string, t: string)
    ensures head + s == head + t <==> s == t
  {
    if head + s == head + t {
      assert (head + s)[|head|..] == s && (head + t)[|head|..] == t;
    }
  }

  /** Within a session, exposed names are equal exactly if the safe names are, and exposed addresses
      exactly if the addresses are: no digest plays a part. */
  lemma SameSessionNames(config: Config, session: Session, x: Registration, y: Registration)
    ensures Exposed(config, session, x).exposedName == Exposed(config, session, y).exposedName <==>
      SafeName(x.name, 70) == SafeName(y.name, 70)
    ensures x.kind == Resource && y.kind == Resource ==>
      (Exposed(config, session, x).exposedUri == Exposed(config, session, y).exposedUri <==> x.uri == y.uri)
  {
    hide SafeName; hide Base64.EncodeUrl;
    var fp := config.fingerprint;
    var head := SafeName(session.appId, 20) + "_" + fp(session.appId) + "_" + fp(session.origin) + "__";
    SameTail(head, SafeName(x.name, 70), SafeName(y.name, 70));
    var start := "browsermcp://app-" + fp(session.appId) + "-" + fp(session.origin) + "/";
    SameTail(start, Base64.EncodeUrl(x.uri), Base64.EncodeUrl(y.uri));
    if Base64.EncodeUrl(x.uri) == Base64.EncodeUrl(y.uri) {
      Base64.EncodeUrlInjective(x.uri, y.uri);
    }
  }

  lemma ClashMeans(session: Session, mine: map<string, Capability>, config: Config, x: Registration)
    requires Faithful(session, mine, config)
    ensures Clashes(mine, x) <==>
      NameTaken(mine, Exposed(config, session, x)) || UriTaken(mine, Exposed(config, session, x))
  {
    hide SafeName; hide Exposed;
    var cap := Exposed(config, session, x);
    ExposedIs(config, session, x);
    forall i | i in mine
      ensures mine[i].exposedName == cap.exposedName <==> SafeName(mine[i].registration.name, 70) == SafeName(x.name, 70)
      ensures mine[i].registration.kind == Resource && x.kind == Resource ==>
        (mine[i].exposedUri == cap.exposedUri <==> mine[i].registration.uri == x.uri)
    {
      SameSessionNames(config, session, mine[i].registration, x);
    }
  }

  // ----- Registering -----

  /** Nothing speaks against this registration: its connection is there, its id is free, it clashes with
      nothing, it can be serialised, and there is room in all four respects. */
  ghost predicate Registrable(r: Registry, limits: Limits, c: Uuid, x: Registration) {
    && c in r.sessions && c in r.registrations && c in r.bytes
    && x.id !in r.registrations[c] && !Clashes(r.registrations[c], x)
    && x.size.Some?
    && |r.registrations[c]| < limits.maxRegistrationsPerRuntime
    && r.count < limits.maxRegistrationsTotal
    && Sum(r.bytes[c]) + x.size.value <= limits.maxRegistrationBytesPerRuntime
    && r.retained + x.size.value <= limits.maxRegistrationBytesTotal
  }

  /** Why it is refused, when it is. */
  ghost predicate RefusedFor(r: Registry, c: Uuid, x: Registration, error: ErrorCode) {
    if c !in r.sessions then error == BrowserDisconnected
    else if c in r.registrations && (x.id in r.registrations[c] || Clashes(r.registrations[c], x)) then
      error == RegistrationConflict
    else if x.size.None? then error == InvalidMessage
    else error == RegistrationLimit
  }

  lemma RefusedExactlyWhen(r: Registry, config: Config, c: Uuid, x: Registration)
    requires Inv(r, config)
    ensures RegisterError(r, config, c, x).None? <==> Registrable(r, config.limits, c, x)
    ensures RegisterError(r, config, c, x).Some? ==> RefusedFor(r, c, x, RegisterError(r, config, c, x).value)
  {
    hide Sum; hide Exposed; hide Clashes; hide NameTaken; hide UriTaken; hide Tallied; hide DistinctRuntimes; hide UniqueHere;
    hide Faithful;
    if c in r.sessions {
      assert Sound(r.sessions[c], r.registrations[c], r.bytes[c], config);
      ClashMeans(r.sessions[c], r.registrations[c], config, x);
    }
  }

  /** The answer to a registration, in terms of the tables: the capability as it is exposed exactly if
      nothing speaks against it, and otherwise the reason. */
  ghost predicate Answers(r: Registry, config: Config, c: Uuid, x: Registration, answer: Result<Capability>) {
    match answer
    case Ok(cap) => Registrable(r, config.limits, c, x) && IsExposedAs(cap, config.fingerprint, r.sessions[c], x)
    case Err(error) => !Registrable(r, config.limits, c, x) && RefusedFor(r, c, x, error)
  }

  lemma AnswerIs(r: Registry, config: Config, c: Uuid, x: Registration)
    requires Inv(r, config)
    ensures Answers(r, config, c, x, match RegisterError(r, config, c, x)
                                     case Some(error) => Err(error)
                                     case None => Ok(Exposed(config, r.sessions[c], x)))
  {
    hide Inv; hide Registrable; hide RefusedFor; hide RegisterError; hide IsExposedAs; hide Exposed;
    RefusedExactlyWhen(r, config, c, x);
    if RegisterError(r, config, c, x).None? {
      RegistrableMeans(r, config.limits, c, x);
      ExposedIs(config, r.sessions[c], x);
    }
  }

  lemma RegistrableMeans(r: Registry, limits: Limits, c: Uuid, x: Registration)
    requires Registrable(r, limits, c, x)
    ensures c in r.sessions
  {
  }

  /** Both registries hold the same sessions and, at every other place, the same entries. */
  ghost predicate SameElsewhere(r: Registry, after: Registry, p: Place) {
    && after.sessions == r.sessions
    && (forall q :: q != p && At(r, q) ==> At(after, q) && CapabilityAt(after, q) == CapabilityAt(r, q))
    && (forall q :: q != p && At(after, q) ==> At(r, q))
  }

  /** A registration against which nothing speaks is taken in, under the name and address that are made
      of its own and its session's parts, and counted; any other changes nothing. */
  lemma RegistrationOutcome(r: Registry, config: Config, c: Uuid, x: Registration)
    requires Inv(r, config)
    ensures var after, p := Registered(r, config, c, x), Place(c, x.id);
      if Registrable(r, config.limits, c, x) then
        && At(after, p) && !At(r, p) && SameElsewhere(r, after, p)
        && IsExposedAs(CapabilityAt(after, p), config.fingerprint, r.sessions[c], x)
        && after.count == r.count + 1 && after.retained == r.retained + x.size.value
        && c in after.bytes && Sum(after.bytes[c]) == Sum(r.bytes[c]) + x.size.value
      else after == r
  {
    hide Inv; hide Sum; hide CountAll; hide BytesAll; hide Exposed; hide Registrable; hide IsExposedAs; hide RegisterError;
    RefusedExactlyWhen(r, config, c, x);
    if Registrable(r, config.limits, c, x) {
      Parts(r, config, c, x);
      RegisterTotals(r, config, c, x);
      ExposedIs(config, r.sessions[c], x);
    }
  }

  lemma Parts(r: Registry, config: Config, c: Uuid, x: Registration)
    requires Inv(r, config) && Registrable(r, config.limits, c, x)
    ensures c in r.sessions && c in r.registrations && c in r.bytes && x.id !in r.registrations[c] && x.size.Some?
    ensures r == Tallied(r.sessions, r.registrations, r.bytes) && Aligned(r)
    ensures r.registrations[c].Keys == r.bytes[c].Keys
  {
    hide Sum; hide CountAll; hide BytesAll; hide Clashes; hide Faithful; hide UniqueHere; hide DistinctRuntimes;
    assert Sound(r.sessions[c], r.registrations[c], r.bytes[c], config);
  }

  // ----- Unregistering -----

  /** What is registered can be taken back, and is then unknown; anything else changes nothing. */
  lemma UnregistrationOutcome(r: Registry, config: Config, c: Uuid, id: string)
    requires Inv(r, config)
    ensures var after, p := Unregistered(r, c, id), Place(c, id);
      if c in r.registrations && id in r.registrations[c] then
        && !At(after, p) && SameElsewhere(r, after, p)
        && c in r.bytes && id in r.bytes[c]
        && after.count == r.count - 1 && after.retained == r.retained - r.bytes[c][id]
      else after == r
  {
    hide Sum; hide CountAll; hide BytesAll; hide Exposed; hide UniqueHere; hide Faithful; hide DistinctRuntimes;
    if Holds(r, c, id) {
      assert Sound(r.sessions[c], r.registrations[c], r.bytes[c], config);
      UnregisterTotals(r, c, id);
    }
  }

  /** Registering and taking back: the same entries, the same totals. */
  lemma RegisterThenUnregister(r: Registry, config: Config, c: Uuid, x: Registration)
    requires Inv(r, config) && Registrable(r, config.limits, c, x)
    ensures var there := Registered(r, config, c, x); Unregistered(there, c, x.id) == r
  {
    hide Inv; hide Sum; hide CountAll; hide BytesAll; hide Exposed; hide Registrable; hide RegisterError;
    RefusedExactlyWhen(r, config, c, x);
    Parts(r, config, c, x);
    var there := Registered(r, config, c, x);
    var mine, sizes := r.registrations[c], r.bytes[c];
    assert there.registrations[c] - {x.id} == mine;
    assert there.bytes[c] - {x.id} == sizes;
    assert there.registrations[c := mine] == r.registrations;
    assert there.bytes[c := sizes] == r.bytes;
  }

  // ----- What is in the registry -----

  /** Every entry is exposed under the name and the address made of its own and its session's parts. */
  lemma EntriesAreExposed(r: Registry, config: Config, p: Place)
    requires Inv(r, config) && At(r, p)
    ensures p.connectionId in r.sessions && CapabilityAt(r, p).registration.id == p.id
    ensures IsExposedAs(CapabilityAt(r, p), config.fingerprint, r.sessions[p.connectionId], CapabilityAt(r, p).registration)
  {
    hide Exposed; hide Sum; hide CountAll; hide BytesAll; hide UniqueHere; hide DistinctRuntimes; hide IsExposedAs;
    assert Sound(r.sessions[p.connectionId], r.registrations[p.connectionId], r.bytes[p.connectionId], config);
    ExposedIs(config, r.sessions[p.connectionId], CapabilityAt(r, p).registration);
  }

  /** Two entries, of the same connection or not, share their exposed name exactly if their applications'
      prefixes, both fingerprints and their safe names agree. */
  lemma EntriesAreToldApart(r: Registry, config: Config, p: Place, q: Place)
    requires Inv(r, config) && At(r, p) && At(r, q) && forall x :: IsFingerprint(config.fingerprint(x))
    requires p.connectionId in r.sessions && q.connectionId in r.sessions
    ensures var fp, s, t := config.fingerprint, r.sessions[p.connectionId], r.sessions[q.connectionId];
      CapabilityAt(r, p).exposedName == CapabilityAt(r, q).exposedName <==>
        && SafeName(s.appId, 20) == SafeName(t.appId, 20) && fp(s.appId) == fp(t.appId) && fp(s.origin) == fp(t.origin)
        && SafeName(CapabilityAt(r, p).registration.name, 70) == SafeName(CapabilityAt(r, q).registration.name, 70)
  {
    hide Inv; hide SafeName; hide Base64.EncodeUrl;
    EntriesAreExposed(r, config, p);
    EntriesAreExposed(r, config, q);
    var s, t := r.sessions[p.connectionId], r.sessions[q.connectionId];
    NamesEqualExactlyWhen(config.fingerprint, s.appId, s.origin, CapabilityAt(r, p).registration.name,
                          t.appId, t.origin, CapabilityAt(r, q).registration.name);
  }

  // ----- Listings -----

  /** Two entries that a client cannot tell apart in a list: resources with the same address, tools or
      prompts with the same name. */
  predicate Alike(a: Capability, b: Capability) {
    && a.registration.kind == b.registration.kind
    && if a.registration.kind == Resource then a.exposedUri == b.exposedUri else a.exposedName == b.exposedName
  }

  lemma AlikeMeans(r: Registry, config: Config, kind: Kind, p: Place, q: Place)
    requires Inv(r, config) && OfKind(r, kind)(p) && OfKind(r, kind)(q)
    ensures KeyAt(r)(p) == KeyAt(r)(q) <==> Alike(CapabilityAt(r, p), CapabilityAt(r, q))
  {
    hide Inv; hide SafeName; hide Base64.EncodeUrl;
    EntriesAreExposed(r, config, p);
    EntriesAreExposed(r, config, q);
  }

  /** A list of one kind shows entries of that kind only, none of them alike, and for every entry of the
      kind one that is like it. */
  lemma ListIsComplete(r: Registry, config: Config, places: seq<Place>, kind: Kind)
    requires Inv(r, config) && IsListing(r, places)
    ensures var list := Listed(r, places, kind);
      && (forall p :: p in list ==> At(r, p) && CapabilityAt(r, p).registration.kind == kind)
      && (forall i, j :: 0 <= i < j < |list| && At(r, list[i]) && At(r, list[j]) ==>
            !Alike(CapabilityAt(r, list[i]), CapabilityAt(r, list[j])))
      && (forall p :: At(r, p) && CapabilityAt(r, p).registration.kind == kind ==>
            exists q :: q in list && At(r, q) && Alike(CapabilityAt(r, p), CapabilityAt(r, q)))
  {
    hide Inv; hide Keep; hide FirstOfEach; hide KeyAt; hide Alike;
    var all := Keep(places, OfKind(r, kind));
    var list := Listed(r, places, kind);
    assert list == FirstOfEach(all, KeyAt(r));
    KeepMembers(places, OfKind(r, kind));
    FirstOfEachIsDistinct(all, KeyAt(r));
    forall i, j | 0 <= i < j < |list| ensures !Alike(CapabilityAt(r, list[i]), CapabilityAt(r, list[j])) {
      assert list[i] in list && list[j] in list;
      AlikeMeans(r, config, kind, list[i], list[j]);
      assert KeyAt(r)(list[i]) != KeyAt(r)(list[j]);
    }
    forall p | At(r, p) && CapabilityAt(r, p).registration.kind == kind
      ensures exists q :: q in list && At(r, q) && Alike(CapabilityAt(r, p), CapabilityAt(r, q))
    {
      assert p in all;
      var n :| 0 <= n < |all| && all[n] == p;
      assert Has(all, KeyAt(r), KeyAt(r)(p));
      FirstOfEachKeys(all, KeyAt(r), KeyAt(r)(p));
      var i :| 0 <= i < |list| && KeyAt(r)(list[i]) == KeyAt(r)(p);
      assert list[i] in list;
      AlikeMeans(r, config, kind, p, list[i]);
    }
  }
}
