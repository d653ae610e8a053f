/** The capability registry: which sessions are live, what each of them has registered, and what
    that costs. */
module RegistryModel {
  import opened Common
  import opened Capabilities
  import opened Totals
  import opened Names

  datatype Limits = Limits(
    maxRegistrationsPerRuntime: nat,
    maxRegistrationsTotal: nat,
    maxRegistrationBytesPerRuntime: nat,
    maxRegistrationBytesTotal: nat)

  /** `fingerprint` is the digest function that names are built from. */
  datatype Config = Config(limits: Limits, fingerprint: string -> string)

  datatype Registry = Registry(
    sessions: map<Uuid, Session>,
    registrations: map<Uuid, map<string, Capability>>,
    bytes: map<Uuid, map<string, nat>>,
    count: nat,
    retained: nat)

  const EMPTY := Registry(map[], map[], map[], 0, 0)

  function EntryCount(mine: map<string, Capability>): nat {
    |mine|
  }

  ghost function Counts(registrations: map<Uuid, map<string, Capability>>): map<Uuid, nat> {
    map c | c in registrations :: EntryCount(registrations[c])
  }

  ghost function Sizes(bytes: map<Uuid, map<string, nat>>): map<Uuid, nat> {
    map c | c in bytes :: Sum(bytes[c])
  }

  ghost function CountAll(registrations: map<Uuid, map<string, Capability>>): nat {
    Sum(Counts(registrations))
  }

  ghost function BytesAll(bytes: map<Uuid, map<string, nat>>): nat {
    Sum(Sizes(bytes))
  }

  /** A registry whose running totals are what its tables add up to. */
  ghost function Tallied(sessions: map<Uuid, Session>, registrations: map<Uuid, map<string, Capability>>,
                         bytes: map<Uuid, map<string, nat>>): Registry
  {
    Registry(sessions, registrations, bytes, CountAll(registrations), BytesAll(bytes))
  }

  predicate SameRuntime(a: Session, b: Session) {
    a.origin == b.origin && a.appId == b.appId && a.instanceId == b.instanceId
  }

  predicate Conflicts(sessions: map<Uuid, Session>, session: Session) {
    exists c :: c in sessions && SameRuntime(sessions[c], session)
  }

  ghost function Added(r: Registry, session: Session): Registry {
    if Conflicts(r.sessions, session) then r else
      var c := session.connectionId;
      Tallied(r.sessions[c := session], r.registrations[c := map[]], r.bytes[c := map[]])
  }

  ghost function Removed(r: Registry, c: Uuid): Registry {
    Tallied(r.sessions - {c}, r.registrations - {c}, r.bytes - {c})
  }

  function Exposed(config: Config, session: Session, registration: Registration): Capability {
    Capability(
      CapabilityName(config.fingerprint, session.appId, session.origin, registration.name),
      if registration.kind == Resource
        then Some(ResourceUri(config.fingerprint, session.appId, session.origin, registration.uri)) else None,
      registration,
      session)
  }

  predicate NameTaken(mine: map<string, Capability>, cap: Capability) {
    exists id :: id in mine && mine[id].registration.kind == cap.registration.kind && mine[id].exposedName == cap.exposedName
  }

  predicate UriTaken(mine: map<string, Capability>, cap: Capability) {
    && cap.exposedUri.Some?
    && exists id :: id in mine && mine[id].registration.kind == Resource && mine[id].exposedUri == cap.exposedUri
  }

  /** Why a registration is refused, in the order in which the checks are made. */
  ghost function RegisterError(r: Registry, config: Config, c: Uuid, registration: Registration): Option<ErrorCode>
  {
    if c !in r.sessions || c !in r.registrations || c !in r.bytes then Some(BrowserDisconnected) else
      var mine := r.registrations[c];
      var cap := Exposed(config, r.sessions[c], registration);
      if registration.id in mine || NameTaken(mine, cap) || UriTaken(mine, cap) then Some(RegistrationConflict)
      else if registration.size.None? then Some(InvalidMessage)
      else if EntryCount(mine) >= config.limits.maxRegistrationsPerRuntime then Some(RegistrationLimit)
      else if r.count >= config.limits.maxRegistrationsTotal then Some(RegistrationLimit)
      else if Sum(r.bytes[c]) + registration.size.value > config.limits.maxRegistrationBytesPerRuntime then
        Some(RegistrationLimit)
      else if r.retained + registration.size.value > config.limits.maxRegistrationBytesTotal then Some(RegistrationLimit)
      else None
  }

  function WithSize(sizes: map<string, nat>, id: string, size: nat): map<string, nat> {
    sizes[id := size]
  }

  ghost function Registered(r: Registry, config: Config, c: Uuid, registration: Registration): Registry {
    if RegisterError(r, config, c, registration).Some? then r else
      var cap := Exposed(config, r.sessions[c], registration);
      Tallied(r.sessions,
              r.registrations[c := r.registrations[c][registration.id := cap]],
              r.bytes[c := WithSize(r.bytes[c], registration.id, registration.size.value)])
  }

  predicate Holds(r: Registry, c: Uuid, id: string) {
    c in r.registrations && id in r.registrations[c]
  }

  ghost function Unregistered(r: Registry, c: Uuid, id: string): Registry {
    if !Holds(r, c, id) || c !in r.bytes then r else
      Tallied(r.sessions, r.registrations[c := r.registrations[c] - {id}], r.bytes[c := r.bytes[c] - {id}])
  }

  // ----- The invariant -----

  ghost predicate DistinctRuntimes(sessions: map<Uuid, Session>) {
    forall c, d :: c in sessions && d in sessions && c != d ==> !SameRuntime(sessions[c], sessions[d])
  }

  /** Each entry is what its session and registration expose, under the registration's own id. */
  ghost predicate Faithful(session: Session, mine: map<string, Capability>, config: Config) {
    forall id :: id in mine ==>
      mine[id].registration.id == id && mine[id] == Exposed(config, session, mine[id].registration)
  }

  /** Within one connection, names are distinct per kind and addresses are distinct. */
  ghost predicate UniqueHere(mine: map<string, Capability>) {
    forall i, j :: i in mine && j in mine && i != j && mine[i].registration.kind == mine[j].registration.kind ==>
      && mine[i].exposedName != mine[j].exposedName
      && (mine[i].registration.kind == Resource ==> mine[i].exposedUri != mine[j].exposedUri)
  }

  /** One connection's share of the registry. */
  ghost predicate Sound(session: Session, mine: map<string, Capability>, sizes: map<string, nat>, config: Config) {
    && mine.Keys == sizes.Keys
    && EntryCount(mine) <= config.limits.maxRegistrationsPerRuntime
    && Sum(sizes) <= config.limits.maxRegistrationBytesPerRuntime
    && Faithful(session, mine, config)
    && UniqueHere(mine)
  }

  ghost predicate Aligned(r: Registry) {
    && r.sessions.Keys == r.registrations.Keys == r.bytes.Keys
    && forall c :: c in r.sessions ==> r.sessions[c].connectionId == c
  }

  ghost predicate Inv(r: Registry, config: Config) {
    && r == Tallied(r.sessions, r.registrations, r.bytes)
    && Aligned(r)
    && DistinctRuntimes(r.sessions)
    && r.count <= config.limits.maxRegistrationsTotal
    && r.retained <= config.limits.maxRegistrationBytesTotal
    && forall c :: c in r.sessions ==> Sound(r.sessions[c], r.registrations[c], r.bytes[c], config)
  }
}
