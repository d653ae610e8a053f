/** What every operation of the registry keeps: exact totals, limits, distinctness. */
module RegistryLaws {
  import opened Common
  import opened Capabilities
  import opened Totals
  import opened Names
  import opened RegistryModel

  // ----- Totals -----

  lemma CountsUpdate(regs: map<Uuid, map<string, Capability>>, c: Uuid, m: map<string, Capability>)
    ensures Counts(regs[c := m]) == Counts(regs)[c := EntryCount(m)]
    ensures Counts(regs - {c}) == Counts(regs) - {c}
  {
    hide EntryCount;
  }

  lemma SizesUpdate(bytes: map<Uuid, map<string, nat>>, c: Uuid, m: map<string, nat>)
    ensures Sizes(bytes[c := m]) == Sizes(bytes)[c := Sum(m)]
    ensures Sizes(bytes - {c}) == Sizes(bytes) - {c}
  {
    hide Sum;
  }

  lemma Domains(regs: map<Uuid, map<string, Capability>>, bytes: map<Uuid, map<string, nat>>, c: Uuid)
    ensures c in Counts(regs) <==> c in regs
    ensures c in regs ==> Counts(regs)[c] == EntryCount(regs[c])
    ensures c in Sizes(bytes) <==> c in bytes
    ensures c in bytes ==> Sizes(bytes)[c] == Sum(bytes[c])
  {
  }

  lemma SumReplace(m: map<Uuid, nat>, c: Uuid, v: nat)
    ensures Sum(m[c := v]) + (if c in m then m[c] else 0) == Sum(m) + v
    ensures Sum(m - {c}) + (if c in m then m[c] else 0) == Sum(m)
  {
    hide Sum;
    if c in m {
      SumUpdate(m, c, v);
      SumSplit(m, c);
    } else {
      SumInsert(m, c, v);
      assert m - {c} == m;
    }
  }

  lemma CountAllUpdate(regs: map<Uuid, map<string, Capability>>, c: Uuid, m: map<string, Capability>)
    ensures CountAll(regs[c := m]) + (if c in regs then EntryCount(regs[c]) else 0) == CountAll(regs) + EntryCount(m)
    ensures CountAll(regs - {c}) + (if c in regs then EntryCount(regs[c]) else 0) == CountAll(regs)
  {
    hide Sum; hide Counts; hide EntryCount;
    CountsUpdate(regs, c, m);
    Domains(regs, map[], c);
    SumReplace(Counts(regs), c, EntryCount(m));
  }

  lemma BytesAllUpdate(bytes: map<Uuid, map<string, nat>>, c: Uuid, m: map<string, nat>)
    ensures BytesAll(bytes[c := m]) + (if c in bytes then Sum(bytes[c]) else 0) == BytesAll(bytes) + Sum(m)
    ensures BytesAll(bytes - {c}) + (if c in bytes then Sum(bytes[c]) else 0) == BytesAll(bytes)
  {
    hide Sum; hide Sizes;
    SizesUpdate(bytes, c, m);
    Domains(map[], bytes, c);
    SumReplace(Sizes(bytes), c, Sum(m));
  }

  lemma SumOfNothing()
    ensures Sum<string>(map[]) == 0 && CountAll(map[]) == 0 && BytesAll(map[]) == 0 && EntryCount(map[]) == 0
  {
    assert Counts(map[]) == map[] && Sizes(map[]) == map[];
  }

  // ----- Preservation -----

  lemma EmptyInv(config: Config)
    ensures Inv(EMPTY, config)
  {
    hide Sum; hide CountAll; hide BytesAll;
    SumOfNothing();
  }

  lemma NothingIsSound(session: Session, config: Config)
    ensures Sound(session, map[], map[], config)
  {
    SumOfNothing();
  }

  /** A session may be added only for a connection that has none yet; otherwise the entries of the
      old session would be dropped while their cost stayed on the books. */
  lemma AddKeepsInv(r: Registry, config: Config, session: Session)
    requires Inv(r, config) && session.connectionId !in r.sessions
    ensures Inv(Added(r, session), config)
  {
    hide EntryCount; hide DistinctRuntimes; hide Conflicts;
    hide Sum; hide CountAll; hide BytesAll; hide Exposed; hide Sound;
    SumOfNothing();
    NothingIsSound(session, config);
    if !Conflicts(r.sessions, session) {
      NewRuntimeIsDistinct(r.sessions, session);
    }
    CountAllUpdate(r.registrations, session.connectionId, map[]);
    BytesAllUpdate(r.bytes, session.connectionId, map[]);
  }

  lemma NewRuntimeIsDistinct(sessions: map<Uuid, Session>, session: Session)
    requires DistinctRuntimes(sessions) && !Conflicts(sessions, session) && session.connectionId !in sessions
    ensures DistinctRuntimes(sessions[session.connectionId := session])
  {
    forall c | c in sessions ensures !SameRuntime(sessions[c], session) && !SameRuntime(session, sessions[c]) {
    }
  }

  lemma RemoveKeepsInv(r: Registry, config: Config, c: Uuid)
    requires Inv(r, config)
    ensures Inv(Removed(r, c), config)
  {
    hide EntryCount; hide SameRuntime;
    hide Sum; hide CountAll; hide BytesAll; hide Exposed; hide Sound;
    CountAllUpdate(r.registrations, c, map[]);
    BytesAllUpdate(r.bytes, c, map[]);
  }

  lemma RegisterTotals(r: Registry, config: Config, c: Uuid, registration: Registration)
    requires r == Tallied(r.sessions, r.registrations, r.bytes) && Aligned(r)
    requires c in r.bytes ==> r.registrations[c].Keys == r.bytes[c].Keys
    requires RegisterError(r, config, c, registration).None?
    ensures var after := Registered(r, config, c, registration);
      && after.count == r.count + 1 && after.retained == r.retained + registration.size.value
      && EntryCount(after.registrations[c]) == EntryCount(r.registrations[c]) + 1
      && Sum(after.bytes[c]) == Sum(r.bytes[c]) + registration.size.value
  {
    var cap := Exposed(config, r.sessions[c], registration);
    var size: nat := registration.size.value;
    SumInsert(r.bytes[c], registration.id, size);
    CountAllUpdate(r.registrations, c, r.registrations[c][registration.id := cap]);
    BytesAllUpdate(r.bytes, c, WithSize(r.bytes[c], registration.id, size));
  }

  lemma UniqueWith(mine: map<string, Capability>, id: string, cap: Capability)
    requires UniqueHere(mine) && id !in mine && !NameTaken(mine, cap) && !UriTaken(mine, cap)
    requires cap.registration.kind == Resource ==> cap.exposedUri.Some?
    ensures UniqueHere(mine[id := cap])
  {
  }

  lemma RegisterKeepsSound(session: Session, mine: map<string, Capability>, sizes: map<string, nat>, config: Config,
                           cap: Capability, size: nat)
    requires Sound(session, mine, sizes, config) && cap == Exposed(config, session, cap.registration)
    requires cap.registration.id !in mine && !NameTaken(mine, cap) && !UriTaken(mine, cap)
    requires EntryCount(mine) < config.limits.maxRegistrationsPerRuntime
    requires Sum(WithSize(sizes, cap.registration.id, size)) <= config.limits.maxRegistrationBytesPerRuntime
    ensures Sound(session, mine[cap.registration.id := cap], WithSize(sizes, cap.registration.id, size), config)
  {
    hide Sum; hide CapabilityName; hide ResourceUri; hide UniqueHere; hide NameTaken; hide UriTaken;
    UniqueWith(mine, cap.registration.id, cap);
  }

  lemma RegisterKeepsInv(r: Registry, config: Config, c: Uuid, registration: Registration)
    requires Inv(r, config)
    ensures Inv(Registered(r, config, c, registration), config)
  {
    hide Sum; hide CountAll; hide BytesAll; hide Exposed; hide Sound; hide DistinctRuntimes;
    if RegisterError(r, config, c, registration).None? {
      SoundKeys(r.sessions[c], r.registrations[c], r.bytes[c], config);
      RegisterTotals(r, config, c, registration);
      ExposedFacts(config, r.sessions[c], registration);
      RegisterKeepsSound(r.sessions[c], r.registrations[c], r.bytes[c], config,
                         Exposed(config, r.sessions[c], registration), registration.size.value);
    }
  }

  lemma ExposedFacts(config: Config, session: Session, registration: Registration)
    ensures Exposed(config, session, registration).registration == registration
  {
  }

  lemma SoundKeys(session: Session, mine: map<string, Capability>, sizes: map<string, nat>, config: Config)
    requires Sound(session, mine, sizes, config)
    ensures mine.Keys == sizes.Keys
  {
  }

  lemma UnregisterTotals(r: Registry, c: Uuid, id: string)
    requires r == Tallied(r.sessions, r.registrations, r.bytes) && Aligned(r) && Holds(r, c, id)
    requires r.registrations[c].Keys == r.bytes[c].Keys
    ensures var after := Unregistered(r, c, id);
      && after.count == r.count - 1 && after.retained == r.retained - r.bytes[c][id]
      && EntryCount(after.registrations[c]) == EntryCount(r.registrations[c]) - 1
      && Sum(after.bytes[c]) == Sum(r.bytes[c]) - r.bytes[c][id]
  {
    SumSplit(r.bytes[c], id);
    assert |r.registrations[c]| == |r.registrations[c] - {id}| + 1;
    CountAllUpdate(r.registrations, c, r.registrations[c] - {id});
    BytesAllUpdate(r.bytes, c, r.bytes[c] - {id});
  }

  lemma UniqueWithout(mine: map<string, Capability>, id: string)
    requires UniqueHere(mine)
    ensures UniqueHere(mine - {id})
  {
  }

  lemma SoundWithout(session: Session, mine: map<string, Capability>, sizes: map<string, nat>, config: Config,
                     id: string)
    requires Sound(session, mine, sizes, config) && id in mine
    requires Sum(sizes - {id}) <= Sum(sizes)
    ensures Sound(session, mine - {id}, sizes - {id}, config)
  {
    hide Sum; hide Exposed; hide UniqueHere;
    assert mine == (mine - {id})[id := mine[id]];
    UniqueWithout(mine, id);
  }

  lemma UnregisterKeepsInv(r: Registry, config: Config, c: Uuid, id: string)
    requires Inv(r, config)
    ensures Inv(Unregistered(r, c, id), config)
  {
    hide Sum; hide CountAll; hide BytesAll; hide Exposed; hide Sound;
    if Holds(r, c, id) {
      SoundKeys(r.sessions[c], r.registrations[c], r.bytes[c], config);
      UnregisterTotals(r, c, id);
      SoundWithout(r.sessions[c], r.registrations[c], r.bytes[c], config, id);
    }
  }
}
