/** The registry itself, with its nested tables and running totals. */
module Registry {
  import opened Common
  import opened Capabilities
  import opened Totals
  import opened RegistryModel
  import opened RegistryLaws
  import opened RegistryOutcomes
  import opened Sequences
  import opened Resolution

  /** `Math.max(0, a - b)` */
  function Less(a: nat, b: nat): nat {
    if a >= b then a - b else 0
  }

  class CapabilityRegistry {
    const config: Config
    var bytesByConnection: map<Uuid, map<string, nat>>
    var registrations: map<Uuid, map<string, Capability>>
    var sessions: map<Uuid, Session>
    var registrationCount: nat
    var retainedBytes: nat

    ghost function View(): RegistryModel.Registry
      reads this
    {
      RegistryModel.Registry(sessions, registrations, bytesByConnection, registrationCount, retainedBytes)
    }

    ghost predicate Valid()
      reads this
    {
      Inv(View(), config)
    }

    constructor (config: Config)
      ensures this.config == config && View() == EMPTY && Valid()
    {
      EmptyInv(config);
      this.config := config;
      bytesByConnection, registrations, sessions := map[], map[], map[];
      registrationCount, retainedBytes := 0, 0;
    }

    method AddSession(session: Session) returns (error: Option<ErrorCode>)
      requires Valid() && session.connectionId !in sessions
      modifies this
      ensures Valid() && View() == Added(old(View()), session)
      ensures error == if Conflicts(old(sessions), session) then Some(RegistrationConflict) else None
      ensures error.Some? <==>
        exists d ::
          && d in old(sessions)
          && old(sessions)[d].origin == session.origin && old(sessions)[d].appId == session.appId
          && old(sessions)[d].instanceId == session.instanceId
    {
      hide Inv; hide Sum; hide CountAll; hide BytesAll;
      AddKeepsInv(View(), config, session);
      AddTotals(View(), config, session);
      if Conflicts(sessions, session) {
        return Some(RegistrationConflict);
      }
      sessions := sessions[session.connectionId := session];
      registrations := registrations[session.connectionId := map[]];
      bytesByConnection := bytesByConnection[session.connectionId := map[]];
      return None;
    }

    method RemoveSession(connectionId: Uuid) returns (removed: map<string, Capability>)
      requires Valid()
      modifies this
      ensures Valid() && View() == Removed(old(View()), connectionId)
      ensures removed == if connectionId in old(registrations) then old(registrations)[connectionId] else map[]
    {
      hide Inv; hide Sum; hide CountAll; hide BytesAll;
      RemoveKeepsInv(View(), config, connectionId);
      RemoveTotals(View(), config, connectionId);
      hide Less;
      var before := if connectionId in bytesByConnection then bytesByConnection[connectionId] else map[];
      var retained := SumOfValues(before);
      removed := if connectionId in registrations then registrations[connectionId] else map[];
      registrationCount := Less(registrationCount, |removed|);
      retainedBytes := Less(retainedBytes, retained);
      bytesByConnection := bytesByConnection - {connectionId};
      registrations := registrations - {connectionId};
      sessions := sessions - {connectionId};
    }

    method Register(connectionId: Uuid, registration: Registration) returns (r: Result<Capability>)
      requires Valid()
      modifies this
      ensures Valid() && View() == Registered(old(View()), config, connectionId, registration)
      ensures r == match RegisterError(old(View()), config, connectionId, registration)
                   case Some(error) => Err(error)
                   case None => Ok(Exposed(config, old(sessions)[connectionId], registration))
      // In terms of the tables: when it is taken, under what name, and why it is not.
      ensures Answers(old(View()), config, connectionId, registration, r)
    {
      hide Inv; hide Sum; hide CountAll; hide BytesAll; hide Exposed; hide NameTaken; hide UriTaken;
      hide Answers; hide Registered; hide Tallied;
      AnswerIs(View(), config, connectionId, registration);
      RegisteredTables(View(), config, connectionId, registration);
      RegisterKeepsInv(View(), config, connectionId, registration);
      Shape(View(), config);
      if connectionId !in sessions || connectionId !in registrations || connectionId !in bytesByConnection {
        return Err(BrowserDisconnected);
      }
      var mine := registrations[connectionId];
      if registration.id in mine {
        return Err(RegistrationConflict);
      }
      var capability := Exposed(config, sessions[connectionId], registration);
      if NameTaken(mine, capability) {
        return Err(RegistrationConflict);
      }
      if UriTaken(mine, capability) {
        return Err(RegistrationConflict);
      }
      if registration.size.None? {
        return Err(InvalidMessage);
      }
      var size := registration.size.value;
      var runtimeBytes := SumOfValues(bytesByConnection[connectionId]);
      if |mine| >= config.limits.maxRegistrationsPerRuntime {
        return Err(RegistrationLimit);
      }
      if registrationCount >= config.limits.maxRegistrationsTotal {
        return Err(RegistrationLimit);
      }
      if runtimeBytes + size > config.limits.maxRegistrationBytesPerRuntime {
        return Err(RegistrationLimit);
      }
      if retainedBytes + size > config.limits.maxRegistrationBytesTotal {
        return Err(RegistrationLimit);
      }
      registrations := registrations[connectionId := mine[registration.id := capability]];
      bytesByConnection := bytesByConnection[connectionId := WithSize(bytesByConnection[connectionId], registration.id, size)];
      registrationCount := registrationCount + 1;
      retainedBytes := retainedBytes + size;
      return Ok(capability);
    }

    method Unregister(connectionId: Uuid, id: string) returns (r: Result<Capability>)
      requires Valid()
      modifies this
      ensures Valid()
      ensures View() == Unregistered(old(View()), connectionId, id)
      ensures r == if Holds(old(View()), connectionId, id) then Ok(old(registrations)[connectionId][id]) else Err(NotFound)
      ensures r == if connectionId in old(registrations) && id in old(registrations)[connectionId]
                   then Ok(old(registrations)[connectionId][id]) else Err(NotFound)
    {
      hide Inv; hide Sum; hide CountAll; hide BytesAll;
      Shape(View(), config);
      UnregisterKeepsInv(View(), config, connectionId, id);
      if connectionId !in registrations || id !in registrations[connectionId] {
        return Err(NotFound);
      }
      UnregisterTotals(View(), connectionId, id);
      var capability := registrations[connectionId][id];
      var size := if connectionId in bytesByConnection && id in bytesByConnection[connectionId]
        then bytesByConnection[connectionId][id] else 0;
      bytesByConnection := bytesByConnection[connectionId := bytesByConnection[connectionId] - {id}];
      registrations := registrations[connectionId := registrations[connectionId] - {id}];
      registrationCount := Less(registrationCount, 1);
      retainedBytes := Less(retainedBytes, size);
      return Ok(capability);
    }

    /** `all`: the tables are walked in their own order, which is left open here. */
    method All() returns (places: seq<Place>)
      ensures IsListing(View(), places)
    {
      places := [];
      var todo := registrations.Keys;
      while todo != {}
        invariant todo <= registrations.Keys
        invariant forall i, j :: 0 <= i < j < |places| ==> places[i] != places[j]
        invariant forall p :: p in places ==> At(View(), p) && p.connectionId !in todo
        invariant forall p :: At(View(), p) && p.connectionId !in todo ==> p in places
        decreases todo
      {
        var c :| c in todo;
        var here := ListOf(c, registrations[c]);
        todo := todo - {c};
        places := places + here;
      }
    }

    /** Finding the provider of a name or an address and making sure that it is the only one. */
    method Resolve(target: Target) returns (r: Result<Capability>)
      requires Valid()
      ensures r == Err(NotFound) <==> forall c :: !Offers(View(), target, c)
      ensures r == Err(AmbiguousTarget) <==>
        exists c, d :: c != d && Offers(View(), target, c) && Offers(View(), target, d)
      ensures r.Err? ==> r.error == NotFound || r.error == AmbiguousTarget
      ensures r.Ok? ==> exists p :: At(View(), p) && CapabilityAt(View(), p) == r.value && Hits(target, r.value)
                                    && forall c :: Offers(View(), target, c) <==> c == p.connectionId
    {
      hide Inv; hide Keep;
      var places := All();
      var registry := RegistryModel.Registry(sessions, registrations, bytesByConnection, registrationCount, retainedBytes);
      ResolutionIsExact(View(), config, places, target);
      var found := ResolveUnique(Providers(registry, places, target));
      if found.Err? {
        return Err(found.error);
      }
      return Ok(CapabilityAt(registry, found.value));
    }
  }

  method ListOf(c: Uuid, mine: map<string, Capability>) returns (places: seq<Place>)
    ensures forall i, j :: 0 <= i < j < |places| ==> places[i] != places[j]
    ensures forall p :: p in places ==> p.connectionId == c && p.id in mine
    ensures forall id :: id in mine ==> Place(c, id) in places
  {
    places := [];
    var ids := mine.Keys;
    while ids != {}
      invariant ids <= mine.Keys
      invariant forall i, j :: 0 <= i < j < |places| ==> places[i] != places[j]
      invariant forall p :: p in places ==> p.connectionId == c && p.id in mine && p.id !in ids
      invariant forall id :: id in mine && id !in ids ==> Place(c, id) in places
      decreases ids
    {
      var id :| id in ids;
      ids := ids - {id};
      places := places + [Place(c, id)];
    }
  }

  lemma RegisteredTables(r: RegistryModel.Registry, config: Config, c: Uuid, x: Registration)
    requires Inv(r, config)
    ensures Registered(r, config, c, x) ==
      if RegisterError(r, config, c, x).Some? then r
      else RegistryModel.Registry(
        r.sessions,
        r.registrations[c := r.registrations[c][x.id := Exposed(config, r.sessions[c], x)]],
        r.bytes[c := WithSize(r.bytes[c], x.id, x.size.value)],
        r.count + 1,
        r.retained + x.size.value)
  {
    hide Inv; hide Sum; hide CountAll; hide BytesAll; hide Exposed; hide NameTaken; hide UriTaken;
    Shape(r, config);
    if RegisterError(r, config, c, x).None? {
      RegisterTotals(r, config, c, x);
    }
  }

  lemma Shape(r: RegistryModel.Registry, config: Config)
    requires Inv(r, config)
    ensures r == Tallied(r.sessions, r.registrations, r.bytes) && Aligned(r)
    ensures forall c :: c in r.registrations ==> r.registrations[c].Keys == r.bytes[c].Keys
  {
  }

  lemma AddTotals(r: RegistryModel.Registry, config: Config, session: Session)
    requires Inv(r, config) && session.connectionId !in r.sessions
    ensures Added(r, session).count == r.count && Added(r, session).retained == r.retained
  {
    hide Sum; hide CountAll; hide BytesAll; hide Sound;
    SumOfNothing();
    CountAllUpdate(r.registrations, session.connectionId, map[]);
    BytesAllUpdate(r.bytes, session.connectionId, map[]);
  }

  /** What a removed session cost is on the books, so the clamps at zero never act. */
  lemma RemoveTotals(r: RegistryModel.Registry, config: Config, c: Uuid)
    requires Inv(r, config)
    ensures var entries := if c in r.registrations then r.registrations[c] else map[];
      Less(r.count, |entries|) == Removed(r, c).count == r.count - |entries|
    ensures var sizes := if c in r.bytes then r.bytes[c] else map[];
      Less(r.retained, Sum(sizes)) == Removed(r, c).retained == r.retained - Sum(sizes)
  {
    hide Sum; hide CountAll; hide BytesAll; hide Sound;
    SumOfNothing();
    CountAllUpdate(r.registrations, c, map[]);
    BytesAllUpdate(r.bytes, c, map[]);
  }
}
