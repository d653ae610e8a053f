/** Listing capabilities and finding the one provider of a name or an address. */
module Resolution {
  import opened Common
  import opened Sequences
  import opened Capabilities
  import opened RegistryModel

  /** What an MCP client asks for: a tool or prompt by name, a resource by address. */
  datatype Target = ByName(kind: Kind, exposedName: string) | ByUri(exposedUri: string)

  predicate Hits(target: Target, cap: Capability) {
    match target
    case ByName(kind, name) => cap.registration.kind == kind && cap.exposedName == name
    case ByUri(uri) => cap.registration.kind == Resource && cap.exposedUri == Some(uri)
  }

  /** A registration is addressed by its connection and its id. */
  datatype Place = Place(connectionId: Uuid, id: string)

  predicate At(r: Registry, p: Place) {
    Holds(r, p.connectionId, p.id)
  }

  function CapabilityAt(r: Registry, p: Place): Capability
    requires At(r, p)
  {
    r.registrations[p.connectionId][p.id]
  }

  /** A walk over all registrations, in whatever order the tables happen to be in. */
  ghost predicate IsListing(r: Registry, places: seq<Place>) {
    && (forall i, j :: 0 <= i < j < |places| ==> places[i] != places[j])
    && (forall p :: p in places ==> At(r, p))
    && (forall p :: At(r, p) ==> p in places)
  }

  function Provides(r: Registry, target: Target): Place -> bool {
    (p: Place) => At(r, p) && Hits(target, CapabilityAt(r, p))
  }

  function Providers(r: Registry, places: seq<Place>, target: Target): seq<Place> {
    Keep(places, Provides(r, target))
  }

  function ResolveUnique(providers: seq<Place>): Result<Place> {
    if |providers| == 0 then Err(NotFound)
    else if |providers| > 1 then Err(AmbiguousTarget)
    else Ok(providers[0])
  }

  /** Does this connection offer the target? */
  ghost predicate Offers(r: Registry, target: Target, c: Uuid) {
    exists id :: Provides(r, target)(Place(c, id))
  }

  /** A connection offers a target at most once. */
  lemma OfferedOncePerConnection(r: Registry, config: Config, target: Target, p: Place, q: Place)
    requires Inv(r, config) && Provides(r, target)(p) && Provides(r, target)(q) && p.connectionId == q.connectionId
    ensures p == q
  {
    hide Exposed;
    assert Sound(r.sessions[p.connectionId], r.registrations[p.connectionId], r.bytes[p.connectionId], config);
    assert UniqueHere(r.registrations[p.connectionId]);
  }

  lemma ProvidersFacts(r: Registry, places: seq<Place>, target: Target)
    requires IsListing(r, places)
    ensures var found := Providers(r, places, target);
      && (forall i, j :: 0 <= i < j < |found| ==> found[i] != found[j])
      && (forall p :: p in found ==> Provides(r, target)(p))
      && (forall p :: Provides(r, target)(p) ==> p in found)
  {
    KeepMembers(places, Provides(r, target));
    var different := (a: Place, b: Place) => a != b;
    KeepPairwise(places, Provides(r, target), different);
    var found := Providers(r, places, target);
    forall i, j | 0 <= i < j < |found| ensures found[i] != found[j] {
      assert different(found[i], found[j]);
    }
  }

  /** A target resolves to a provider exactly if that provider's connection is the only one to offer
      it; it is unknown exactly if no connection offers it, and ambiguous exactly if two do. The
      order of the tables plays no part. */
  lemma ResolutionIsExact(r: Registry, config: Config, places: seq<Place>, target: Target)
    requires Inv(r, config) && IsListing(r, places)
    ensures var answer := ResolveUnique(Providers(r, places, target));
      && (answer == Err(NotFound) <==> forall c :: !Offers(r, target, c))
      && (answer == Err(AmbiguousTarget) <==> exists c, d :: c != d && Offers(r, target, c) && Offers(r, target, d))
      && (answer.Ok? ==> Provides(r, target)(answer.value)
                         && forall c :: Offers(r, target, c) <==> c == answer.value.connectionId)
  {
    hide Inv; hide Keep;
    var found := Providers(r, places, target);
    ProvidersFacts(r, places, target);
    forall p | p in found ensures Offers(r, target, p.connectionId) {
      assert Place(p.connectionId, p.id) == p;
    }
    forall c | Offers(r, target, c) ensures exists p :: p in found && p.connectionId == c {
      var id :| Provides(r, target)(Place(c, id));
      assert Place(c, id) in found;
    }
    if |found| > 1 {
      if found[0].connectionId == found[1].connectionId {
        OfferedOncePerConnection(r, config, target, found[0], found[1]);
      }
    }
  }

  /** Any two walks over the same registry resolve every target alike. */
  lemma OrderDoesNotMatter(r: Registry, config: Config, places: seq<Place>, places': seq<Place>, target: Target)
    requires Inv(r, config) && IsListing(r, places) && IsListing(r, places')
    ensures ResolveUnique(Providers(r, places, target)) == ResolveUnique(Providers(r, places', target))
  {
    hide Inv; hide Providers;
    ResolutionIsExact(r, config, places, target);
    ResolutionIsExact(r, config, places', target);
    var a, b := ResolveUnique(Providers(r, places, target)), ResolveUnique(Providers(r, places', target));
    if a.Ok? && b.Ok? {
      assert Offers(r, target, a.value.connectionId);
      OfferedOncePerConnection(r, config, target, a.value, b.value);
    }
  }

  // ----- Listings -----

  function OfKind(r: Registry, kind: Kind): Place -> bool {
    (p: Place) => At(r, p) && CapabilityAt(r, p).registration.kind == kind
  }

  /** Tools and prompts are listed by name, resources by address. */
  function KeyAt(r: Registry): Place -> string {
    (p: Place) =>
      if !At(r, p) then ""
      else if CapabilityAt(r, p).registration.kind == Resource && CapabilityAt(r, p).exposedUri.Some? then
        CapabilityAt(r, p).exposedUri.value
      else CapabilityAt(r, p).exposedName
  }

  function TargetOf(kind: Kind, key: string): Target {
    if kind == Resource then ByUri(key) else ByName(kind, key)
  }

  /** The list of tools, of resources or of prompts shown to a client. */
  ghost function Listed(r: Registry, places: seq<Place>, kind: Kind): seq<Place> {
    FirstOfEach(Keep(places, OfKind(r, kind)), KeyAt(r))
  }

  lemma KeyedByTarget(r: Registry, config: Config, kind: Kind, key: string, p: Place)
    requires Inv(r, config)
    ensures Provides(r, TargetOf(kind, key))(p) <==> OfKind(r, kind)(p) && KeyAt(r)(p) == key
  {
    if At(r, p) {
      assert Sound(r.sessions[p.connectionId], r.registrations[p.connectionId], r.bytes[p.connectionId], config);
    }
  }

  /** Every key on the list is there once; a key is on the list exactly if some connection offers
      it; and asking for it then succeeds or is ambiguous, but never unknown. */
  lemma ListingIsExact(r: Registry, config: Config, places: seq<Place>, kind: Kind, key: string)
    requires Inv(r, config) && IsListing(r, places)
    ensures var list := Listed(r, places, kind);
      && (forall i, j :: 0 <= i < j < |list| ==> KeyAt(r)(list[i]) != KeyAt(r)(list[j]))
      && (Has(list, KeyAt(r), key) <==> exists c :: Offers(r, TargetOf(kind, key), c))
      && (Has(list, KeyAt(r), key) <==> ResolveUnique(Providers(r, places, TargetOf(kind, key))) != Err(NotFound))
  {
    hide Inv; hide Keep; hide FirstOfEach; hide KeyAt; hide OfKind; hide Provides; hide Providers;
    var target := TargetOf(kind, key);
    var all := Keep(places, OfKind(r, kind));
    FirstOfEachIsDistinct(all, KeyAt(r));
    FirstOfEachKeys(all, KeyAt(r), key);
    KeepMembers(places, OfKind(r, kind));
    ResolutionIsExact(r, config, places, target);
    if i :| 0 <= i < |all| && KeyAt(r)(all[i]) == key {
      assert all[i] in all && OfKind(r, kind)(all[i]);
      KeyedByTarget(r, config, kind, key, all[i]);
      assert Place(all[i].connectionId, all[i].id) == all[i];
      assert Offers(r, target, all[i].connectionId);
    }
    if c :| Offers(r, target, c) {
      var id :| Provides(r, target)(Place(c, id));
      var p := Place(c, id);
      KeyedByTarget(r, config, kind, key, p);
      ProvidedIsListed(r, places, target, p);
      assert p in all;
      var i :| 0 <= i < |all| && all[i] == p;
      assert KeyAt(r)(all[i]) == key;
    }
  }

  lemma ProvidedIsListed(r: Registry, places: seq<Place>, target: Target, p: Place)
    requires IsListing(r, places) && Provides(r, target)(p)
    ensures p in places
  {
  }
}
