/** The whole Bridge as one state machine: sockets, sessions, approvals, one-time tokens, the
    registry and the broker, moved on by one message, timer, socket event or operator at a time. */
module GatewayModel {
  import opened Common
  import opened Capabilities
  import opened Sequences
  import opened Expiring
  import opened RecentRequests
  import opened Resolution
  import B = BrokerModel
  import R = RegistryModel
  import T = Tokens
  import Negotiation

  const TOKEN_CAP := 256
  const SUPPORTED_VERSIONS := ["1.1.0", "1.0.0"]
  const KNOWN_CAPABILITIES := {"tools", "resources", "prompts", "cancellation", "session-resume", "heartbeat"}

  datatype Config = Config(
    broker: B.Limits,
    registry: R.Config,
    maxBrowserConnections: nat,
    pairingTokenTtlMs: nat,
    resumeTokenTtlMs: nat)

  datatype Approval = Approval(requestId: Uuid, appId: string, runtimeId: string, instanceId: string, expiresAt: nat)

  /** `open` says whether the socket still takes messages to send; it never becomes true again. */
  datatype Socket = Socket(origin: string, open: bool, approval: Option<Approval>, session: Option<Session>)

  datatype Grant = Grant(sessionId: Uuid, origin: string, appId: string, runtimeId: string, instanceId: string)

  /** `used` holds every id and secret ever drawn. */
  datatype Bridge = Bridge(
    sockets: map<Uuid, Socket>,
    broker: B.State,
    registry: R.Registry,
    pairing: seq<Entry<string>>,
    resume: seq<Entry<Grant>>,
    used: set<Uuid>,
    clock: nat)

  const STARTED := Bridge(map[], B.INITIAL, R.EMPTY, [], [], {}, 0)

  // ----- Messages and steps -----

  datatype Auth = WithApproval | WithResume(token: Uuid, sessionId: Uuid) | WithPairing(token: Uuid)

  /** The payload of a `connect` message; `origin` is normalised, and absent if it is not a web origin. */
  datatype Hello = Hello(
    origin: Option<string>,
    version: string,
    supportedVersions: seq<string>,
    capabilities: set<string>,
    appId: string,
    runtimeId: string,
    instanceId: string,
    auth: Auth)

  datatype Message =
    | Malformed
    | Connect(hello: Hello)
    | Register(sessionId: Uuid, registration: Registration)
    | Unregister(sessionId: Uuid, registrationId: string)
    | ResultOf(sessionId: Uuid, invocationId: Uuid, output: Summary)
    | ErrorOf(session: Option<Uuid>, invocation: Option<Uuid>, code: string)
    | CancelOf(sessionId: Uuid, invocationId: Uuid)
    | Heartbeat(sessionId: Uuid)
    | Disconnect(session: Option<Uuid>, canResume: bool)
    | FromBridge(session: Option<Uuid>, handshake: bool)

  function ClaimedSession(m: Message): Option<Uuid> {
    match m
    case Malformed => None
    case Connect(_) => None
    case Register(s, _) => Some(s)
    case Unregister(s, _) => Some(s)
    case ResultOf(s, _, _) => Some(s)
    case ErrorOf(s, _, _) => s
    case CancelOf(s, _) => Some(s)
    case Heartbeat(s) => Some(s)
    case Disconnect(s, _) => s
    case FromBridge(s, _) => s
  }

  /** The next values of `randomUUID` and `createSecret`. */
  datatype Draw = Draw(sessionId: Uuid, secret: Uuid, requestId: Uuid)

  datatype Action =
    | Upgrade(connectionId: Uuid, origin: string)
    | Receive(connectionId: Uuid, message: Message, draw: Draw)
    | SocketClosed(connectionId: Uuid)
    | SocketFails(connectionId: Uuid)
    | ApprovalTimer(connectionId: Uuid)
    | Decide(requestId: Uuid, approve: bool, draw: Draw)
    | IssuePairing(origin: string, secret: Uuid)
    | Call(target: Target, invocationId: Uuid, aborted: bool, sent: bool)
    | CallTimer(invocationId: Uuid, sent: bool)
    | CallAborted(invocationId: Uuid, sent: bool)
    | Stop

  function Drawn(a: Action): set<Uuid> {
    match a
    case Upgrade(c, _) => {c}
    case Receive(_, _, d) => {d.sessionId, d.secret, d.requestId}
    case Decide(_, _, d) => {d.sessionId, d.secret, d.requestId}
    case IssuePairing(_, secret) => {secret}
    case Call(_, id, _, _) => {id}
    case _ => {}
  }

  // ----- The parts that steps are made of -----

  /** `socket.close`: from here on nothing can be sent; the rest is left to the close event. */
  function Shut(b: Bridge, c: Uuid): Bridge {
    if c in b.sockets then b.(sockets := b.sockets[c := b.sockets[c].(open := false)]) else b
  }

  /** A connection and everything that hangs on it goes away. */
  ghost function Detach(b: Bridge, c: Uuid): Bridge {
    b.(sockets := b.sockets - {c}, broker := B.Lost(b.broker, c), registry := R.Removed(b.registry, c))
  }

  function GrantOf(s: Session): Grant {
    Grant(s.sessionId, s.origin, s.appId, s.runtimeId, s.instanceId)
  }

  function ForSession(sessionId: Uuid): Grant -> bool {
    (g: Grant) => g.sessionId == sessionId
  }

  /** A session begins, unless the runtime is already connected; it gets the only grant to resume it. */
  ghost function Established(b: Bridge, k: Config, session: Session, secret: Uuid): Bridge {
    var c := session.connectionId;
    if c !in b.sockets || R.Conflicts(b.registry.sessions, session) then Shut(b, c)
    else
      b.(sockets := b.sockets[c := b.sockets[c].(session := Some(session))],
         registry := R.Added(b.registry, session),
         resume := T.Issued(T.Revoked(b.resume, ForSession(session.sessionId)), TOKEN_CAP, k.resumeTokenTtlMs, b.clock,
                            secret, GrantOf(session)))
  }

  /** The connection that a resumed session is still attached to. */
  predicate IsPrevious(sockets: map<Uuid, Socket>, c: Uuid, grant: Grant, p: Uuid) {
    p in sockets && p != c && sockets[p].session.Some? && GrantOf(sockets[p].session.value) == grant
  }

  predicate HasPrevious(sockets: map<Uuid, Socket>, c: Uuid, grant: Grant) {
    exists p :: p in sockets && IsPrevious(sockets, c, grant, p)
  }

  ghost function Previous(sockets: map<Uuid, Socket>, c: Uuid, grant: Grant): Uuid
    requires HasPrevious(sockets, c, grant)
  {
    var p :| p in sockets && IsPrevious(sockets, c, grant, p); p
  }

  ghost function Retired(b: Bridge, c: Uuid, grant: Grant): Bridge {
    if HasPrevious(b.sockets, c, grant) then Detach(b, Previous(b.sockets, c, grant)) else b
  }

  // ----- Approvals -----

  predicate SameApplicant(a: Approval, d: Approval) {
    a.appId == d.appId && a.runtimeId == d.runtimeId && a.instanceId == d.instanceId
  }

  function Awaiting(sockets: map<Uuid, Socket>): set<Uuid> {
    set c | c in sockets && sockets[c].approval.Some?
  }

  function AwaitingAt(sockets: map<Uuid, Socket>, origin: string): set<Uuid> {
    set c | c in sockets && sockets[c].approval.Some? && sockets[c].origin == origin
  }

  /** `Math.max(1, Math.floor(maxBrowserConnections / 2))` */
  function MaxAwaiting(max: nat): (n: nat)
    ensures n >= 1
  {
    if max / 2 > 1 then max / 2 else 1
  }

  predicate AlreadyAsked(sockets: map<Uuid, Socket>, origin: string, a: Approval) {
    exists c :: c in AwaitingAt(sockets, origin) && SameApplicant(sockets[c].approval.value, a)
  }

  predicate MayAsk(sockets: map<Uuid, Socket>, k: Config, origin: string, a: Approval) {
    && |Awaiting(sockets)| < MaxAwaiting(k.maxBrowserConnections)
    && |AwaitingAt(sockets, origin)| < 3
    && !AlreadyAsked(sockets, origin, a)
  }

  /** The request is put before the operator; if the browser cannot be told so, its socket is closed. */
  function Asked(b: Bridge, k: Config, c: Uuid, a: Approval): Bridge
    requires c in b.sockets
  {
    if !MayAsk(b.sockets, k, b.sockets[c].origin, a) then Shut(b, c)
    else b.(sockets := b.sockets[c := b.sockets[c].(approval := Some(a))])
  }

  function Withdrawn(b: Bridge, c: Uuid): Bridge {
    if c in b.sockets then b.(sockets := b.sockets[c := b.sockets[c].(approval := None)]) else b
  }

  function Expired(b: Bridge, c: Uuid): Bridge {
    if c in b.sockets && b.sockets[c].approval.Some? then Shut(Withdrawn(b, c), c) else b
  }

  // ----- Connecting -----

  function SelectedVersion(h: Hello): Option<string> {
    if h.version !in SUPPORTED_VERSIONS then None else Negotiation.Negotiate(h.supportedVersions, SUPPORTED_VERSIONS)
  }

  /** Origin, version and capabilities are as they have to be. */
  predicate Welcome(origin: string, h: Hello) {
    && h.origin == Some(origin)
    && SelectedVersion(h).Some?
    && KNOWN_CAPABILITIES <= h.capabilities
    && (h.auth.WithApproval? ==> SelectedVersion(h) != Some("1.0.0"))
  }

  function ResumeOf(origin: string, h: Hello, sessionId: Uuid): Grant {
    Grant(sessionId, origin, h.appId, h.runtimeId, h.instanceId)
  }

  function Exactly(grant: Grant): Grant -> bool {
    (g: Grant) => g == grant
  }

  function FromOrigin(origin: string): string -> bool {
    (o: string) => o == origin
  }

  function SessionFor(c: Uuid, origin: string, h: Hello, sessionId: Uuid): Session {
    Session(c, sessionId, origin, h.appId, h.runtimeId, h.instanceId)
  }

  ghost function Connected(b: Bridge, k: Config, c: Uuid, h: Hello, draw: Draw): Bridge
    requires c in b.sockets
  {
    var origin := b.sockets[c].origin;
    if !Welcome(origin, h) then Shut(b, c)
    else match h.auth
      case WithApproval =>
        Asked(b, k, c, Approval(draw.requestId, h.appId, h.runtimeId, h.instanceId, b.clock + k.pairingTokenTtlMs))
      case WithResume(token, sessionId) => Resumed(b, k, c, h, token, sessionId, draw.secret)
      case WithPairing(token) => Paired(b, k, c, h, token, draw)
  }

  ghost function Resumed(b: Bridge, k: Config, c: Uuid, h: Hello, token: Uuid, sessionId: Uuid, secret: Uuid): Bridge
    requires c in b.sockets
  {
    var origin := b.sockets[c].origin;
    var accept := Exactly(ResumeOf(origin, h, sessionId));
    var granted := T.Grants(b.resume, b.clock, token, accept);
    var left := b.(resume := T.AfterConsume(b.resume, b.clock, token, accept));
    if granted.None? then Shut(left, c)
    else Established(Retired(left, c, granted.value), k, SessionFor(c, origin, h, sessionId), secret)
  }

  ghost function Paired(b: Bridge, k: Config, c: Uuid, h: Hello, token: Uuid, draw: Draw): Bridge
    requires c in b.sockets
  {
    var origin := b.sockets[c].origin;
    var granted := T.Grants(b.pairing, b.clock, token, FromOrigin(origin));
    var left := b.(pairing := T.AfterConsume(b.pairing, b.clock, token, FromOrigin(origin)));
    if granted.None? then Shut(left, c)
    else Established(left, k, SessionFor(c, origin, h, draw.sessionId), draw.secret)
  }

  // ----- Messages of a session -----

  ghost function Answered(b: Bridge, k: Config, e: B.Event): Bridge {
    b.(broker := B.Step(b.broker, k.broker, b.clock, e))
  }

  ghost function InSession(b: Bridge, k: Config, c: Uuid, session: Session, m: Message): Bridge {
    match m
    case Register(_, registration) => b.(registry := R.Registered(b.registry, k.registry, c, registration))
    case Unregister(_, id) => b.(registry := R.Unregistered(b.registry, c, id))
    case ResultOf(_, id, output) => Answered(b, k, B.ResultMessage(c, id, output))
    case ErrorOf(_, invocation, code) =>
      if invocation.Some? then Answered(b, k, B.ErrorMessage(c, invocation.value, code)) else b
    case CancelOf(_, id) => Answered(b, k, B.CancelFromBrowser(c, id))
    case Disconnect(_, canResume) =>
      Shut(if canResume then b else b.(resume := T.Revoked(b.resume, ForSession(session.sessionId))), c)
    case _ => b
  }

  ghost function Received(b: Bridge, k: Config, c: Uuid, m: Message, draw: Draw): Bridge {
    if c !in b.sockets then b
    else if m.Malformed? then Shut(b, c)
    else match b.sockets[c].session
      case None =>
        if b.sockets[c].approval.Some? || !m.Connect? then Shut(b, c) else Connected(b, k, c, m.hello, draw)
      case Some(session) =>
        if m.Connect? || (m.FromBridge? && m.handshake) then Shut(b, c)
        else if ClaimedSession(m).Some? && ClaimedSession(m).value != session.sessionId then Shut(b, c)
        else InSession(b, k, c, session, m)
  }

  // ----- The operator, the clients and the timers -----

  predicate IsApplicant(sockets: map<Uuid, Socket>, requestId: Uuid, c: Uuid) {
    c in sockets && sockets[c].approval.Some? && sockets[c].approval.value.requestId == requestId
  }

  predicate HasApplicant(sockets: map<Uuid, Socket>, requestId: Uuid) {
    exists c :: c in sockets && IsApplicant(sockets, requestId, c)
  }

  ghost function Applicant(sockets: map<Uuid, Socket>, requestId: Uuid): Uuid
    requires HasApplicant(sockets, requestId)
  {
    var c :| c in sockets && IsApplicant(sockets, requestId, c); c
  }

  function SessionAsked(c: Uuid, origin: string, a: Approval, sessionId: Uuid): Session {
    Session(c, sessionId, origin, a.appId, a.runtimeId, a.instanceId)
  }

  ghost function Decided(b: Bridge, k: Config, requestId: Uuid, approve: bool, draw: Draw): Bridge {
    if !HasApplicant(b.sockets, requestId) then b
    else
      var c := Applicant(b.sockets, requestId);
      var s := b.sockets[c];
      if s.approval.value.expiresAt <= b.clock || !s.open then Expired(b, c)
      else if !approve then Shut(Withdrawn(b, c), c)
      else Established(Withdrawn(b, c), k, SessionAsked(c, s.origin, s.approval.value, draw.sessionId), draw.secret)
  }

  ghost predicate IsOnly(r: R.Registry, target: Target, p: Place) {
    At(r, p) && Hits(target, CapabilityAt(r, p)) && forall c :: Offers(r, target, c) <==> c == p.connectionId
  }

  ghost predicate Resolves(r: R.Registry, target: Target) {
    exists p :: IsOnly(r, target, p)
  }

  /** The one capability that a target stands for. */
  ghost function Resolved(r: R.Registry, target: Target): Capability
    requires Resolves(r, target)
  {
    var p :| IsOnly(r, target, p); CapabilityAt(r, p)
  }

  function KindOf(target: Target): Kind {
    match target
    case ByName(kind, _) => kind
    case ByUri(_) => Resource
  }

  /** Resolving a target and invoking its provider happen in one step. */
  ghost function Called(b: Bridge, k: Config, target: Target, id: Uuid, aborted: bool, sent: bool): Bridge {
    if !Resolves(b.registry, target) then b
    else Answered(b, k, B.Invoke(id, KindOf(target), Resolved(b.registry, target), aborted, sent))
  }

  function ShutAll(sockets: map<Uuid, Socket>): map<Uuid, Socket> {
    map c | c in sockets :: sockets[c].(open := false)
  }

  ghost function Act(b: Bridge, k: Config, a: Action): Bridge {
    match a
    case Upgrade(c, origin) =>
      if |b.sockets| >= k.maxBrowserConnections then b
      else b.(sockets := b.sockets[c := Socket(origin, true, None, None)])
    case Receive(c, m, draw) => Received(b, k, c, m, draw)
    case SocketClosed(c) => Detach(b, c)
    case SocketFails(c) => Shut(b, c)
    case ApprovalTimer(c) => Expired(b, c)
    case Decide(requestId, approve, draw) => Decided(b, k, requestId, approve, draw)
    case IssuePairing(origin, secret) =>
      b.(pairing := T.Issued(b.pairing, TOKEN_CAP, k.pairingTokenTtlMs, b.clock, secret, origin))
    case Call(target, id, aborted, sent) => Called(b, k, target, id, aborted, sent)
    case CallTimer(id, sent) => Answered(b, k, B.TimerFired(id, sent))
    case CallAborted(id, sent) => Answered(b, k, B.SignalAborted(id, sent))
    case Stop => Answered(b, k, B.Stop).(sockets := ShutAll(b.sockets))
  }

  function Ticked(b: Bridge, now: nat, ids: set<Uuid>): Bridge {
    b.(clock := now, used := b.used + ids)
  }

  ghost function Step(b: Bridge, k: Config, now: nat, a: Action): Bridge {
    Act(Ticked(b, now, Drawn(a)), k, a)
  }

  ghost predicate FreshDraw(b: Bridge, d: Draw) {
    && d.sessionId !in b.used && d.secret !in b.used && d.requestId !in b.used
    && d.sessionId != d.secret && d.secret != d.requestId && d.requestId != d.sessionId
  }

  /** Time does not run backwards, and nothing is drawn twice. */
  ghost predicate Possible(b: Bridge, now: nat, a: Action) {
    && b.clock <= now
    && Drawn(a) !! b.used
    && (a.Receive? ==> FreshDraw(b, a.draw))
    && (a.Decide? ==> FreshDraw(b, a.draw))
  }

  // ----- The invariant -----

  function SessionsOf(sockets: map<Uuid, Socket>): map<Uuid, Session> {
    map c | c in sockets && sockets[c].session.Some? :: sockets[c].session.value
  }

  ghost predicate OriginsAgree(sockets: map<Uuid, Socket>) {
    forall c :: c in sockets && sockets[c].session.Some? ==> sockets[c].session.value.origin == sockets[c].origin
  }

  /** Every pending call and every tombstone belongs to a live session. */
  ghost predicate WorkIsLive(broker: B.State, sessions: map<Uuid, Session>) {
    && (forall id :: id in broker.pending ==> B.Connection(broker.pending[id]) in sessions)
    && (forall t :: t in broker.cancelled ==> t.value in sessions)
  }

  ghost predicate DistinctSessions(sessions: map<Uuid, Session>) {
    forall c, d :: c in sessions && d in sessions && c != d ==> sessions[c].sessionId != sessions[d].sessionId
  }

  function DifferentSession(): (Entry<Grant>, Entry<Grant>) -> bool {
    (a: Entry<Grant>, b: Entry<Grant>) => a.value.sessionId != b.value.sessionId
  }

  /** A session id has one grant at most, and a live session with that id is the one it was made for. */
  ghost predicate GrantsFit(resume: seq<Entry<Grant>>, sessions: map<Uuid, Session>) {
    && Pairwise(resume, DifferentSession())
    && forall e, c :: e in resume && c in sessions && sessions[c].sessionId == e.value.sessionId ==>
      GrantOf(sessions[c]) == e.value
  }

  ghost predicate Approvals(sockets: map<Uuid, Socket>, k: Config) {
    && |Awaiting(sockets)| <= MaxAwaiting(k.maxBrowserConnections)
    && (forall origin :: |AwaitingAt(sockets, origin)| <= 3)
    && (forall c :: c in Awaiting(sockets) ==> sockets[c].session.None?)
    && (forall c, d :: c in Awaiting(sockets) && d in Awaiting(sockets) && c != d ==>
          && !(sockets[c].origin == sockets[d].origin
            && SameApplicant(sockets[c].approval.value, sockets[d].approval.value))
          && sockets[c].approval.value.requestId != sockets[d].approval.value.requestId)
  }

  ghost predicate KnownSockets(sockets: map<Uuid, Socket>, used: set<Uuid>) {
    forall c :: c in sockets ==>
      && c in used
      && (sockets[c].approval.Some? ==> sockets[c].approval.value.requestId in used)
      && (sockets[c].session.Some? ==> sockets[c].session.value.sessionId in used)
  }

  ghost predicate KnownTokens(pairing: seq<Entry<string>>, resume: seq<Entry<Grant>>, used: set<Uuid>) {
    && (forall e :: e in pairing ==> e.key in used)
    && (forall e :: e in resume ==> e.key in used && e.value.sessionId in used)
  }

  ghost predicate SocketsInv(sockets: map<Uuid, Socket>, sessions: map<Uuid, Session>, used: set<Uuid>, k: Config) {
    && |sockets| <= k.maxBrowserConnections
    && sessions == SessionsOf(sockets)
    && OriginsAgree(sockets)
    && KnownSockets(sockets, used)
    && Approvals(sockets, k)
  }

  ghost predicate BrokerInv(broker: B.State, sessions: map<Uuid, Session>, used: set<Uuid>, clock: nat, k: Config) {
    && B.Inv(broker, k.broker) && broker.clock <= clock && broker.verdicts.Keys <= used
    && WorkIsLive(broker, sessions)
  }

  ghost predicate TokensInv(pairing: seq<Entry<string>>, resume: seq<Entry<Grant>>, sessions: map<Uuid, Session>,
                            used: set<Uuid>, clock: nat, k: Config)
  {
    && T.Inv(pairing, TOKEN_CAP, k.pairingTokenTtlMs, clock) && T.Inv(resume, TOKEN_CAP, k.resumeTokenTtlMs, clock)
    && KnownTokens(pairing, resume, used)
    && DistinctSessions(sessions) && GrantsFit(resume, sessions)
  }

  ghost predicate Inv(b: Bridge, k: Config) {
    && R.Inv(b.registry, k.registry)
    && SocketsInv(b.sockets, b.registry.sessions, b.used, k)
    && BrokerInv(b.broker, b.registry.sessions, b.used, b.clock, k)
    && TokensInv(b.pairing, b.resume, b.registry.sessions, b.used, b.clock, k)
  }
}
